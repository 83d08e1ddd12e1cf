/** A create of a failed or deleted deployment first looks at the row and then rewrites it whole, in two database calls.
    What comes between them is overwritten: a run shows it, and what must not come between for nothing to be lost. */
module Renewals {
  import opened Common
  import opened Lifecycle
  import opened Store
  import opened Queue
  import Agent
  import Idempotency
  import Service

  // ---- Nothing between the look and the rewriting ----

  /** A create of `id` is about to rewrite the row it has looked at. */
  predicate Rewriting(q: Machine, c: ClientId, id: Id) {
    c in q.clients && q.clients[c].pc.RenewRow? && q.clients[c].call.id == id
  }

  /** The event may write or remove the row of `id`. */
  predicate Touches(q: Machine, e: Event, id: Id) {
    || (e.WriteRow? && e.id == id)
    || (e.Finish? && e.ok && e.w in q.claims && q.claims[e.w] in q.db.ops && q.db.ops[q.claims[e.w]].kind == DeletePurge
        && q.db.ops[q.claims[e.w]].deployment == id)
    || (e.Serve? && e.c in q.clients && q.clients[e.c].call.id == id && (q.clients[e.c].pc.AddRow? || q.clients[e.c].pc.RenewRow?))
  }

  /** While a create is between the two, only itself touches its row. */
  ghost predicate Orderly(q: Machine, e: Event) {
    forall c, id :: Rewriting(q, c, id) && Touches(q, e, id) ==> e.Serve? && e.c == c
  }

  /** What every such create is about to rewrite is the row as it stands. */
  ghost predicate Current(q: Machine) {
    forall c, id :: Rewriting(q, c, id) ==>
      && q.clients[c].call.CreateCall?
      && id in q.db.rows && q.db.rows[id] == q.clients[c].pc.prior
      && (q.db.rows[id].state == Failed || q.db.rows[id].state == Deleted)
  }

  /** Every row there was is there, its state the same or one edge of the table further. */
  ghost predicate AlongEdges(db: Db, db': Db) {
    forall id :: id in db.rows ==>
      id in db'.rows && (db'.rows[id].state == db.rows[id].state || CanTransition(db.rows[id].state, db'.rows[id].state))
  }

  lemma PerformRows(db: Db, call: Call, pc: ClientPc, draw: Draw, serials: map<TokenKey, nat>, db': Db, pc': ClientPc)
    requires (db', pc') == Perform(db, call, pc, draw, serials)
    ensures !pc.AddRow? && !pc.RenewRow? ==> db'.rows == db.rows
    ensures db'.rows == db.rows || (call.CreateCall? && db'.rows == db.rows[call.id := db'.rows[call.id]] && db'.rows[call.id].state == Pending)
    ensures pc.AddRow? && call.id in db.rows ==> db'.rows == db.rows
    ensures pc'.RenewRow? && !pc.RenewRow? ==>
      && call.CreateCall? && pc.Inspect? && call.id in db.rows && pc'.prior == db.rows[call.id]
      && (pc'.prior.state == Failed || pc'.prior.state == Deleted)
    ensures pc'.RenewRow? && pc.RenewRow? ==> pc' == pc && db' == db
  {
    match pc
    case _ =>
  }

  /** A client's call, when nothing has come between: states move along edges, and what is rewritten is what was
      looked at. */
  lemma ServeIsCurrent(q: Machine, c: ClientId, draw: Draw, r: Machine)
    requires Current(q) && Orderly(q, Serve(c, draw)) && c in q.clients && r == ServeClient(q, c, draw)
    ensures Current(r) && AlongEdges(q.db, r.db)
  {
    var call, pc := q.clients[c].call, q.clients[c].pc;
    Idempotency.ServeOrigin(q, c, draw, r);
    Idempotency.ServeKeepsOthers(q, c, draw);
    PerformRows(q.db, call, pc, draw, q.serials, r.db, r.clients[c].pc);
    assert pc.RenewRow? ==> Rewriting(q, c, call.id);
    assert pc.AddRow? || pc.RenewRow? ==> Touches(q, Serve(c, draw), call.id);
    hide ServeClient, Perform, CanTransition;
    EdgesByTarget(Failed);
    EdgesByTarget(Deleted);
    forall d, id | Rewriting(r, d, id)
      ensures r.clients[d].call.CreateCall? && id in r.db.rows && r.db.rows[id] == r.clients[d].pc.prior
      ensures r.db.rows[id].state == Failed || r.db.rows[id].state == Deleted
    {
      if d != c || pc.RenewRow? {
        assert Rewriting(q, d, id);
      }
    }
  }

  lemma QuietRows(q: Machine, e: Event, id: Id)
    requires Exclusive(q) && !e.Serve? && !Touches(q, e, id) && id in q.db.rows
    ensures var r := Step(q, e); id in r.db.rows && r.db.rows[id] == q.db.rows[id]
  {
    if e.Finish? && e.w in q.claims {
      CloseEffect(q.db, q.claims[e.w], e.ok);
    }
    hide Queue.Close, Claimable, IndexOk, Exclusive;
    match e
    case _ =>
  }

  lemma QuietIsCurrent(q: Machine, e: Event, r: Machine)
    requires Exclusive(q) && Current(q) && Orderly(q, e) && !e.Serve? && r == Step(q, e)
    ensures Current(r)
  {
    Idempotency.QuietClients(q, e);
    hide Step, Exclusive, Touches;
    forall c, id | Rewriting(r, c, id)
      ensures r.clients[c].call.CreateCall? && id in r.db.rows && r.db.rows[id] == r.clients[c].pc.prior
      ensures r.db.rows[id].state == Failed || r.db.rows[id].state == Deleted
    {
      assert Rewriting(q, c, id);
      QuietRows(q, e, id);
    }
  }

  lemma StepIsCurrent(q: Machine, e: Event, r: Machine)
    requires Exclusive(q) && Current(q) && Orderly(q, e) && r == Step(q, e)
    ensures Current(r) && (e.Serve? ==> AlongEdges(q.db, r.db))
  {
    if e.Serve? && e.c in q.clients {
      Idempotency.ServeStep(q, e.c, e.draw);
      assert e == Serve(e.c, e.draw);
      hide *;
      ServeIsCurrent(q, e.c, e.draw, r);
    } else if e.Serve? {
    } else {
      hide *;
      QuietIsCurrent(q, e, r);
    }
  }

  ghost predicate OrderlyAt(events: seq<Event>, i: nat)
    requires i < |events|
  {
    Orderly(Run(Init, events[..i]), events[i])
  }

  /** If the i-th event is a client's database call, it moves states along edges. */
  ghost predicate StaysInTable(events: seq<Event>, i: nat)
    requires i < |events|
  {
    events[i].Serve? ==> AlongEdges(Run(Init, events[..i]).db, Run(Init, events[..i + 1]).db)
  }

  /** In a run in which, while a create is between looking at a row and rewriting it, nothing else touches that row,
      every create rewrites exactly what it has looked at, and every client's database call moves the states of
      deployments along edges of the table or leaves them. */
  lemma {:induction false} RenewalsLoseNothing(events: seq<Event>)
    requires forall i | 0 <= i < |events| :: OrderlyAt(events, i)
    ensures Current(Run(Init, events))
    ensures forall i | 0 <= i < |events| :: StaysInTable(events, i)
  {
    hide Step, Orderly, Current, AlongEdges, Exclusive, Run;
    CurrentAtFirst();
    if events == [] {
      RunsNothing();
    } else {
      var m := |events| - 1;
      var before := events[..m];
      forall i | 0 <= i < m ensures OrderlyAt(before, i) && (StaysInTable(before, i) ==> StaysInTable(events, i)) {
        assert OrderlyAt(events, i);
        assert before[..i] == events[..i] && before[..i + 1] == events[..i + 1];
      }
      RenewalsLoseNothing(before);
      RunKeepsExclusive(Init, before);
      assert OrderlyAt(events, m) && events[..m + 1] == events;
      RunsOn(events);
      StepIsCurrent(Run(Init, before), events[m], Run(Init, events));
    }
  }

  lemma RunsNothing()
    ensures Run(Init, []) == Init
  {
  }

  lemma RunsOn(events: seq<Event>)
    requires events != []
    ensures Run(Init, events) == Step(Run(Init, events[..|events| - 1]), events[|events| - 1])
  {
    hide Step;
  }

  lemma CurrentAtFirst()
    ensures Current(Init) && Exclusive(Init)
  {
  }

  // ---- A run that loses an active deployment ----

  const ID: Id := 0

  function CallOf(key: string): Call {
    CreateCall(ID, key, Sha256(key), Request("", "", "", ""), "", 1, true, "", "")
  }

  const CALL := CallOf("a")

  function Drawn(op: OpId): Draw {
    Draw(op, "", "", "")
  }

  function CallAt(c: ClientId): Call {
    CallOf(if c == 0 then "b" else if c == 1 then "c" else "a")
  }

  function Clients(p0: ClientPc, p1: ClientPc, p2: ClientPc): map<ClientId, Client> {
    map[0 := Client(CallAt(0), p0), 1 := Client(CallAt(1), p1), 2 := Client(CallAt(2), p2)]
  }

  /** Three creates of the deployment are being served, each at its own program point. */
  ghost predicate Stage(events: seq<Event>, db: Db, claims: map<WorkerId, OpId>, p0: ClientPc, p1: ClientPc, p2: ClientPc) {
    var q := Run(Init, events);
    q.db == db && q.claims == claims && q.clients == Clients(p0, p1, p2)
  }

  lemma OneTurns(p0: ClientPc, p1: ClientPc, p2: ClientPc, c: ClientId, next: ClientPc)
    requires c < 3
    ensures c in Clients(p0, p1, p2)
    ensures Clients(p0, p1, p2)[c] == Client(CallAt(c), if c == 0 then p0 else if c == 1 then p1 else p2)
    ensures Clients(p0, p1, p2)[c := Client(CallAt(c), next)] ==
      Clients(if c == 0 then next else p0, if c == 1 then next else p1, if c == 2 then next else p2)
  {
    hide CallAt;
    if c == 0 {
    } else if c == 1 {
    } else {
    }
  }

  lemma RunMore(events: seq<Event>, e: Event)
    ensures Run(Init, events + [e]) == Step(Run(Init, events), e)
  {
    hide Step;
    assert (events + [e])[..|events + [e]| - 1] == events;
  }

  lemma Turn(events: seq<Event>, db: Db, claims: map<WorkerId, OpId>, p0: ClientPc, p1: ClientPc, p2: ClientPc, c: ClientId, draw: Draw, db': Db, next: ClientPc)
    requires Stage(events, db, claims, p0, p1, p2) && c < 3
    requires var pc := if c == 0 then p0 else if c == 1 then p1 else p2;
      !pc.Spend? && Perform(db, CallAt(c), pc, draw, map[]) == (db', next)
    ensures Stage(events + [Serve(c, draw)], db', claims, if c == 0 then next else p0, if c == 1 then next else p1, if c == 2 then next else p2)
  {
    hide Perform, Run, ServeClient, CallAt, Clients;
    OneTurns(p0, p1, p2, c, next);
    var q := Run(Init, events);
    var client := q.clients[c];
    Service.SerialsOnlyForSpend(db, client.call, client.pc, draw, q.serials, map[]);
    RunMore(events, Serve(c, draw));
    var r := ServeClient(q, c, draw);
    Idempotency.ServeOrigin(q, c, draw, r);
    Idempotency.ServeKeepsOthers(q, c, draw);
    ServeFrame(q, c, draw);
    assert r.clients[c] == Client(CallAt(c), next);
  }

  lemma Goes(events: seq<Event>, db: Db, claims: map<WorkerId, OpId>, p0: ClientPc, p1: ClientPc, p2: ClientPc, e: Event, db': Db, claims': map<WorkerId, OpId>)
    requires Stage(events, db, claims, p0, p1, p2) && (e.Claim? || e.Finish? || e.WriteRow?)
    requires Step(Run(Init, events), e).db == db' && Step(Run(Init, events), e).claims == claims'
    ensures Stage(events + [e], db', claims', p0, p1, p2)
  {
    hide Run;
    RunMore(events, e);
  }

  const PENDING := NewRow(CALL)
  const FAILED := PENDING.(state := Failed)
  const OPERATION := NewOperation(CALL, "")
  const DONE := OPERATION.(status := Failure)
  const BUSY := OPERATION.(status := Running)
  const STORING := ClientPc.Remember(Accepted(1, ID, ""))
  const STORING2 := ClientPc.Remember(Accepted(2, ID, ""))

  function Tables(row: Row, ops: map<OpId, Operation>, active: map<Id, OpId>): Db {
    Db(map[ID := row], ops, active, map[], map[])
  }

  const QUEUED := Tables(PENDING, map[1 := OPERATION], map[ID := 1])
  const BROKEN := Tables(FAILED, map[1 := DONE], map[])
  const AGAIN := Tables(PENDING, map[1 := DONE, 2 := OPERATION], map[ID := 2])

  function Underway(row: Row): Db {
    Tables(row, map[1 := DONE, 2 := BUSY], map[ID := 2])
  }

  lemma Arrivals() returns (events: seq<Event>)
    ensures Stage(events, EmptyDb, map[], LookUp, LookUp, LookUp)
  {
    var two := [Arrive(0, CallAt(0)), Arrive(1, CallAt(1))];
    Agent.RunTwo(Init, two[0], two[1]);
    RunMore(two, Arrive(2, CallAt(2)));
    events := two + [Arrive(2, CallAt(2))];
    hide Run;
    assert Run(Init, events) == Arrived(Arrived(Arrived(Init, 0, CallAt(0)), 1, CallAt(1)), 2, CallAt(2));
  }

  /** The third create adds the deployment and queues its operation. */
  lemma Creates() returns (events: seq<Event>)
    ensures Stage(events, QUEUED, map[], LookUp, LookUp, STORING)
  {
    events := Arrivals();
    var one := Tables(PENDING, map[], map[]);
    assert Counted(EmptyDb) == {} && EmptyDb.rows[ID := PENDING] == one.rows;
    hide Stage, Run;
    Turn(events, EmptyDb, map[], LookUp, LookUp, LookUp, 2, Drawn(0), EmptyDb, Inspect);
    events := events + [Serve(2, Drawn(0))];
    Turn(events, EmptyDb, map[], LookUp, LookUp, Inspect, 2, Drawn(0), EmptyDb, Count);
    events := events + [Serve(2, Drawn(0))];
    Turn(events, EmptyDb, map[], LookUp, LookUp, Count, 2, Drawn(0), EmptyDb, AddRow);
    events := events + [Serve(2, Drawn(0))];
    Turn(events, EmptyDb, map[], LookUp, LookUp, AddRow, 2, Drawn(0), one, Insert(None));
    events := events + [Serve(2, Drawn(0))];
    Turn(events, one, map[], LookUp, LookUp, Insert(None), 2, Drawn(1), QUEUED, STORING);
    events := events + [Serve(2, Drawn(1))];
  }

  /** A worker fails it. */
  lemma Breaks(before: seq<Event>) returns (events: seq<Event>)
    requires Stage(before, QUEUED, map[], LookUp, LookUp, STORING)
    ensures Stage(events, BROKEN, map[], LookUp, LookUp, STORING)
  {
    LexLessIrreflexive("");
    var running, closed := Tables(PENDING, map[1 := BUSY], map[ID := 1]), Tables(PENDING, map[1 := DONE], map[]);
    assert Claimable(QUEUED, 1) && MarkRunning(QUEUED, 1) == running;
    Goes(before, QUEUED, map[], LookUp, LookUp, STORING, Claim(0, 1), running, map[0 := 1]);
    events := before + [Claim(0, 1)];
    assert Queue.Close(running, 1, false) == closed;
    Goes(events, running, map[0 := 1], LookUp, LookUp, STORING, Finish(0, false), closed, map[]);
    events := events + [Finish(0, false)];
    Goes(events, closed, map[], LookUp, LookUp, STORING, WriteRow(ID, FAILED), BROKEN, map[]);
    events := events + [WriteRow(ID, FAILED)];
  }

  /** The first create looks at the failed row. */
  lemma FirstLooks(before: seq<Event>) returns (events: seq<Event>)
    requires Stage(before, BROKEN, map[], LookUp, LookUp, STORING)
    ensures Stage(events, BROKEN, map[], RenewRow(FAILED), LookUp, STORING)
  {
    hide Stage, Run;
    Turn(before, BROKEN, map[], LookUp, LookUp, STORING, 0, Drawn(0), BROKEN, Inspect);
    events := before + [Serve(0, Drawn(0))];
    Turn(events, BROKEN, map[], Inspect, LookUp, STORING, 0, Drawn(0), BROKEN, RenewRow(FAILED));
    events := events + [Serve(0, Drawn(0))];
  }

  /** The second looks at it too. */
  lemma SecondLooks(before: seq<Event>) returns (events: seq<Event>)
    requires Stage(before, BROKEN, map[], RenewRow(FAILED), LookUp, STORING)
    ensures Stage(events, BROKEN, map[], RenewRow(FAILED), RenewRow(FAILED), STORING)
  {
    hide Stage, Run;
    Turn(before, BROKEN, map[], RenewRow(FAILED), LookUp, STORING, 1, Drawn(0), BROKEN, Inspect);
    events := before + [Serve(1, Drawn(0))];
    Turn(events, BROKEN, map[], RenewRow(FAILED), Inspect, STORING, 1, Drawn(0), BROKEN, RenewRow(FAILED));
    events := events + [Serve(1, Drawn(0))];
  }

  /** It rewrites it and queues its operation. */
  lemma SecondRenews(before: seq<Event>) returns (events: seq<Event>)
    requires Stage(before, BROKEN, map[], RenewRow(FAILED), RenewRow(FAILED), STORING)
    ensures Stage(events, AGAIN, map[], RenewRow(FAILED), STORING2, STORING)
  {
    var renewed := Tables(PENDING, map[1 := DONE], map[]);
    assert RenewedRow(FAILED, CallAt(1)) == PENDING && BROKEN.rows[ID := PENDING] == renewed.rows;
    hide Stage, Run;
    Turn(before, BROKEN, map[], RenewRow(FAILED), RenewRow(FAILED), STORING, 1, Drawn(0), renewed, Insert(None));
    events := before + [Serve(1, Drawn(0))];
    Turn(events, renewed, map[], RenewRow(FAILED), Insert(None), STORING, 1, Drawn(2), AGAIN, STORING2);
    events := events + [Serve(1, Drawn(2))];
  }

  lemma Writes(before: seq<Event>, from: Row, to: Row) returns (events: seq<Event>)
    requires Stage(before, Underway(from), map[0 := 2], RenewRow(FAILED), STORING2, STORING)
    ensures Stage(events, Underway(to), map[0 := 2], RenewRow(FAILED), STORING2, STORING)
  {
    assert Underway(from).rows[ID := to] == Underway(to).rows;
    Goes(before, Underway(from), map[0 := 2], RenewRow(FAILED), STORING2, STORING, WriteRow(ID, to), Underway(to), map[0 := 2]);
    events := before + [WriteRow(ID, to)];
  }

  function In(s: State): Row {
    PENDING.(state := s, bootstrap := if Rank(s) < 6 then PENDING.bootstrap else None)
  }

  /** A worker takes the deployment from pending to active. */
  lemma Provisions(before: seq<Event>) returns (events: seq<Event>)
    requires Stage(before, AGAIN, map[], RenewRow(FAILED), STORING2, STORING)
    ensures Stage(events, Underway(In(Active)), map[0 := 2], RenewRow(FAILED), STORING2, STORING)
  {
    LexLessIrreflexive("");
    assert Claimable(AGAIN, 2) && MarkRunning(AGAIN, 2) == Underway(PENDING);
    Goes(before, AGAIN, map[], RenewRow(FAILED), STORING2, STORING, Claim(0, 2), Underway(PENDING), map[0 := 2]);
    events := before + [Claim(0, 2)];
    hide *;
    events := Writes(events, PENDING, In(CreatingDatabase));
    events := Writes(events, In(CreatingDatabase), In(PullingImage));
    events := Writes(events, In(PullingImage), In(CreatingContainer));
    events := Writes(events, In(CreatingContainer), In(Starting));
    events := Writes(events, In(Starting), In(Migrating));
    events := Writes(events, In(Migrating), In(Healthchecking));
    events := Writes(events, In(Healthchecking), In(Active));
  }

  const OVER := Tables(In(Active), map[1 := DONE, 2 := OPERATION.(status := Succeeded)], map[])

  /** A client's call takes an active deployment back to pending. */
  ghost predicate GoesBack(events: seq<Event>, c: ClientId, draw: Draw) {
    var q, r := Run(Init, events), Run(Init, events + [Serve(c, draw)]);
    && ID in q.db.rows && q.db.rows[ID].state == Active && ID !in q.db.active
    && ID in r.db.rows && r.db.rows[ID].state == Pending && !AlongEdges(q.db, r.db)
  }

  lemma Overtaken() returns (events: seq<Event>)
    ensures Stage(events, Underway(In(Active)), map[0 := 2], RenewRow(FAILED), STORING2, STORING)
  {
    hide *;
    events := Creates();
    events := Breaks(events);
    events := FirstLooks(events);
    events := SecondLooks(events);
    events := SecondRenews(events);
    events := Provisions(events);
  }

  lemma Ends(before: seq<Event>) returns (events: seq<Event>)
    requires Stage(before, Underway(In(Active)), map[0 := 2], RenewRow(FAILED), STORING2, STORING)
    ensures Stage(events, OVER, map[], RenewRow(FAILED), STORING2, STORING)
  {
    assert Queue.Close(Underway(In(Active)), 2, true) == OVER;
    Goes(before, Underway(In(Active)), map[0 := 2], RenewRow(FAILED), STORING2, STORING, Finish(0, true), OVER, map[]);
    events := before + [Finish(0, true)];
  }

  lemma Loses(events: seq<Event>)
    requires Stage(events, OVER, map[], RenewRow(FAILED), STORING2, STORING)
    ensures GoesBack(events, 0, Drawn(0))
  {
    var after := OVER.(rows := map[ID := PENDING]);
    assert RenewedRow(FAILED, CallAt(0)) == PENDING && OVER.rows[ID := PENDING] == after.rows;
    assert ID in OVER.rows && OVER.rows[ID].state == Active && after.rows[ID].state == Pending;
    hide Run;
    Turn(events, OVER, map[], RenewRow(FAILED), STORING2, STORING, 0, Drawn(0), after, Insert(None));
  }

  /** There is a run in which a create looks at a failed deployment, another one makes it active, and the first then
      makes it pending, with the bootstrap secret of its own request. */
  lemma RenewalLosesActive()
    ensures exists events, draw :: GoesBack(events, 0, draw)
  {
    hide *;
    var events := Overtaken();
    events := Ends(events);
    Loses(events);
  }
}

/** The node's limit on deployments: kept when creates do not overlap, and exceeded when they do. */
module Capacity {
  import opened Common
  import opened Store
  import opened Queue
  import Agent
  import Host
  import Invariant
  import Programs
  import Soundness
  import Submission
  import Convergence
  import Outcomes
  import Progress
  import Service

  /** Every create of the run is judged against the same limit. */
  predicate OneLimit(events: seq<Agent.Event>, limit: nat) {
    forall i | 0 <= i < |events| :: events[i].Submit? && events[i].call.CreateCall? ==> events[i].call.limit == limit
  }

  lemma SubmitWithinLimit(db: Db, db': Db, call: Call, limit: nat)
    requires Submission.Effect(db, db', call) && |db.rows| <= limit && (call.CreateCall? ==> call.limit == limit)
    requires CountRows(db) == |db.rows|
    ensures |db'.rows| <= limit
  {
    if db'.rows != db.rows {
      assert db'.rows.Keys == db.rows.Keys + {call.id};
    }
  }

  lemma WorkKeepsRows(a: Agent.World, w: WorkerId, o: Programs.Oracle, b: Agent.World)
    requires Soundness.Sound(a) && w in a.frames && b == Agent.Step(a, Agent.Work(w, o))
    ensures b.q.db.rows.Keys == a.q.db.rows.Keys
  {
    hide *;
    var v := Agent.ViewOf(a, a.frames[w].job.id);
    var c := Programs.Advance(a.frames[w], v, o);
    Soundness.FrameOwns(a, w);
    Soundness.WorkLocal(a, w, o, c);
    Progress.StepKeepsJob(a.frames[w], v, Soundness.FoundFor(a, w), c);
    Soundness.WorkShapes(a, w, o, b, c);
    ShapeKeepsRows(a, w, b, c);
  }

  lemma ShapeKeepsRows(a: Agent.World, w: WorkerId, b: Agent.World, c: Programs.Config)
    requires Soundness.WorkShape(a, w, b, c) && a.frames[w].job.id in a.q.db.rows
    ensures b.q.db.rows.Keys == a.q.db.rows.Keys
  {
  }

  lemma FinishKeepsRows(a: Agent.World, w: WorkerId, text: string, b: Agent.World)
    requires Soundness.Sound(a) && w in a.frames && a.frames[w].pc.Returned? && b == Agent.Step(a, Agent.Event.Finish(w, text))
    ensures b.q.db.rows.Keys <= a.q.db.rows.Keys
  {
    var job := a.frames[w].job;
    hide *;
    Soundness.ClaimHolds(a, w);
    Outcomes.FinishEffect(a, w, text, b);
    var r := a.frames[w].pc.result;
    if r == Programs.Nil {
      SuccessKeepsRows(a.q.db, job.op, b.q.db);
    } else if r == Programs.Err {
      FailureKeepsRows(a.q.db, job.op, Agent.FailedRow(a.q.db.rows[job.id], text), b.q.db);
    } else {
      FailureKeepsRows(a.q.db, job.op, a.q.db.rows[job.id], b.q.db);
    }
  }

  lemma SuccessKeepsRows(db: Db, op: OpId, db': Db)
    requires Outcomes.Succeeds(db, op, db')
    ensures db'.rows.Keys <= db.rows.Keys
  {
  }

  lemma FailureKeepsRows(db: Db, op: OpId, row: Row, db': Db)
    requires Outcomes.Fails(db, op, row, db')
    ensures db'.rows.Keys <= db.rows.Keys
  {
  }

  lemma QuietKeepsRows(a: Agent.World, e: Agent.Event, b: Agent.World)
    requires b == Agent.Step(a, e) && (e.Claim? || e.Abandon? || e.Crash?)
    ensures b.q.db.rows == a.q.db.rows
  {
    match e
    case Claim(w, op) => Agent.RunOne(a.q, Queue.Claim(w, op));
    case Abandon(w) => Agent.RunOne(a.q, Queue.Abandon(w));
    case Crash => Agent.RunOne(a.q, Queue.Reboot);
  }

  lemma StepWithinLimit(a: Agent.World, e: Agent.Event, b: Agent.World, limit: nat)
    requires Soundness.Sound(a) && b == Agent.Step(a, e) && |a.q.db.rows| <= limit
    requires e.Submit? && e.call.CreateCall? ==> e.call.limit == limit
    ensures |b.q.db.rows| <= limit
  {
    hide *;
    match e
    case Submit(call, draws) =>
      Convergence.SoundTells(a);
      TokensTell(a);
      AllCounted(a);
      Convergence.SubmitShape(a, call, draws, b);
      SubmitWithinLimit(a.q.db, b.q.db, call, limit);
    case Work(w, o) =>
      Convergence.IdleWork(a, w, o);
      if w in a.frames {
        WorkKeepsRows(a, w, o, b);
        FewerKeys(b.q.db.rows.Keys, a.q.db.rows.Keys);
      }
    case Finish(w, text) =>
      Convergence.IdleFinish(a, w, text);
      if w in a.frames && a.frames[w].pc.Returned? {
        FinishKeepsRows(a, w, text, b);
        FewerKeys(b.q.db.rows.Keys, a.q.db.rows.Keys);
      }
    case _ => QuietKeepsRows(a, e, b);
  }

  /** The agent never forgets the credentials of a deployment, so every deployment is counted. */
  lemma AllCounted(a: Agent.World)
    requires Soundness.Sound(a)
    ensures CountRows(a.q.db) == |a.q.db.rows|
  {
    forall id | id in a.q.db.rows ensures a.q.db.rows[id].reference != "" {
      assert Invariant.RowOk(Soundness.OwnerOf(a.q.db, id), a.q.db.rows[id], Agent.Obj(a.objects, id));
    }
    hide Soundness.Sound;
    assert Counted(a.q.db) == a.q.db.rows.Keys;
  }

  lemma TokensTell(a: Agent.World)
    requires Soundness.Sound(a)
    ensures Submission.TokensFit(a.q.db)
  {
  }

  /** When API calls do not overlap, no run ever has more deployments than the limit its creates are judged by,
      whatever fails, crashes or is purged. */
  lemma {:induction false} CapacityHolds(objects: map<Id, Host.Objects>, cluster: Host.Cluster, events: seq<Agent.Event>, limit: nat)
    requires OneLimit(events, limit)
    ensures |Agent.Run(Agent.Begin(objects, cluster), events).q.db.rows| <= limit
  {
    hide Agent.Step, Soundness.Sound;
    var a := Agent.Begin(objects, cluster);
    if events != [] {
      var n := |events| - 1;
      assert forall i | 0 <= i < n :: events[..n][i] == events[i];
      CapacityHolds(objects, cluster, events[..n], limit);
      Soundness.RunKeeps(objects, cluster, events[..n]);
      StepWithinLimit(Agent.Run(a, events[..n]), events[n], Agent.Run(a, events), limit);
    }
  }

  // ---- Overlapping creates ----

  const DRAW := Draw(0, "", "", "")

  function Asking(id: Id): Call {
    CreateCall(id, if id == 0 then "a" else "b", Sha256(""), Request("", "", "", ""), "", 1, true, "", "")
  }

  /** Two creates are being served, each at its own program point, and nothing else has happened. */
  ghost predicate Both(q: Machine, events: seq<Event>, rows: map<Id, Row>, first: ClientPc, second: ClientPc) {
    && q == Run(Init, events)
    && (forall i | 0 <= i < |events| :: events[i].Arrive? ==> events[i].call.CreateCall? && events[i].call.limit == 1)
    && q.db == EmptyDb.(rows := rows)
    && q.clients == map[0 := Client(Asking(0), first), 1 := Client(Asking(1), second)]
  }

  lemma Turn(q: Machine, events: seq<Event>, rows: map<Id, Row>, first: ClientPc, second: ClientPc, c: ClientId, rows': map<Id, Row>, next: ClientPc)
    requires Both(q, events, rows, first, second) && c < 2
    requires var pc := if c == 0 then first else second;
      !pc.Insert? && !pc.Issue? && Perform(q.db, Asking(c), pc, DRAW, q.serials) == (EmptyDb.(rows := rows'), next)
    ensures Both(ServeClient(q, c, DRAW), events + [Serve(c, DRAW)], rows',
                 if c == 0 then next else first, if c == 0 then second else next)
  {
    hide Perform;
    RunAppends(Init, events, [Serve(c, DRAW)]);
    Agent.RunOne(q, Serve(c, DRAW));
    assert q.clients[c] == Client(Asking(c), if c == 0 then first else second);
  }

  lemma Overlapped(q0: Machine, e0: seq<Event>) returns (q: Machine, events: seq<Event>)
    requires Both(q0, e0, map[], LookUp, LookUp)
    ensures Both(q, events, map[0 := NewRow(Asking(0)), 1 := NewRow(Asking(1))], Insert(None), Insert(None))
  {
    var one: map<Id, Row> := map[0 := NewRow(Asking(0))];
    var two: map<Id, Row> := map[0 := NewRow(Asking(0)), 1 := NewRow(Asking(1))];
    assert one[1 := NewRow(Asking(1))] == two;
    hide Both, ServeClient;
    q, events := Next(q0, e0, map[], LookUp, LookUp, 0, map[], Inspect);
    q, events := Next(q, events, map[], Inspect, LookUp, 0, map[], Count);
    q, events := Next(q, events, map[], Count, LookUp, 1, map[], Inspect);
    q, events := Next(q, events, map[], Count, Inspect, 1, map[], Count);
    q, events := Next(q, events, map[], Count, Count, 0, map[], AddRow);
    q, events := Next(q, events, map[], AddRow, Count, 1, map[], AddRow);
    q, events := Next(q, events, map[], AddRow, AddRow, 0, one, Insert(None));
    q, events := Next(q, events, one, Insert(None), AddRow, 1, two, Insert(None));
  }

  lemma Next(q: Machine, events: seq<Event>, rows: map<Id, Row>, first: ClientPc, second: ClientPc, c: ClientId, rows': map<Id, Row>, next: ClientPc)
    returns (r: Machine, longer: seq<Event>)
    requires Both(q, events, rows, first, second) && c < 2
    requires var pc := if c == 0 then first else second;
      !pc.Insert? && !pc.Issue? && !pc.Spend?
      && Perform(EmptyDb.(rows := rows), Asking(c), pc, DRAW, map[]) == (EmptyDb.(rows := rows'), next)
    ensures Both(r, longer, rows', if c == 0 then next else first, if c == 0 then second else next)
  {
    var pc := if c == 0 then first else second;
    Service.SerialsOnlyForSpend(EmptyDb.(rows := rows), Asking(c), pc, DRAW, q.serials, map[]);
    assert q.db == EmptyDb.(rows := rows);
    hide *;
    Turn(q, events, rows, first, second, c, rows', next);
    r, longer := ServeClient(q, c, DRAW), events + [Serve(c, DRAW)];
  }

  lemma BothTell(q: Machine, events: seq<Event>, rows: map<Id, Row>, first: ClientPc, second: ClientPc)
    requires Both(q, events, rows, first, second)
    ensures q == Run(Init, events) && q.db.rows == rows
    ensures forall i | 0 <= i < |events| :: events[i].Arrive? ==> events[i].call.CreateCall? && events[i].call.limit == 1
  {
  }

  /** A run in which every create is judged by a limit of one leaves two deployments. */
  ghost predicate Exceeds(events: seq<Event>) {
    && (forall i | 0 <= i < |events| :: events[i].Arrive? ==> events[i].call.CreateCall? && events[i].call.limit == 1)
    && |Run(Init, events).db.rows| == 2
  }

  /** Two creates that overlap both pass the count, and a node with room for one deployment has two. */
  lemma OverlappingCreatesExceedCapacity()
    ensures exists events :: Exceeds(events)
  {
    var e0 := [Arrive(0, Asking(0)), Arrive(1, Asking(1))];
    Agent.RunTwo(Init, e0[0], e0[1]);
    var q0 := Run(Init, e0);
    assert q0.clients == map[0 := Client(Asking(0), LookUp), 1 := Client(Asking(1), LookUp)];
    assert EmptyDb.(rows := map[]) == EmptyDb;
    assert Both(q0, e0, map[], LookUp, LookUp);
    var q, events := Overlapped(q0, e0);
    var rows: map<Id, Row> := map[0 := NewRow(Asking(0)), 1 := NewRow(Asking(1))];
    BothTell(q, events, rows, Insert(None), Insert(None));
    assert rows.Keys == {0, 1};
    hide Run, Both;
    assert Exceeds(events);
  }

  // ---- How far the limit can be passed ----

  function Creating(q: Machine): set<ClientId> {
    set c | c in q.clients && q.clients[c].call.CreateCall? && !q.clients[c].pc.Answered?
  }

  /** Past the count, and about to add its row. */
  function Adding(q: Machine): set<ClientId> {
    set c | c in q.clients && q.clients[c].call.CreateCall? && q.clients[c].pc.AddRow?
  }

  /** Creates are judged by this limit, and what workers write keeps the credentials reference. */
  predicate Admits(e: Event, limit: nat) {
    && (e.Arrive? && e.call.CreateCall? ==> e.call.limit == limit)
    && (e.WriteRow? ==> e.row.reference != "")
  }

  ghost predicate Within(q: Machine, limit: nat, n: nat) {
    && (forall id | id in q.db.rows :: q.db.rows[id].reference != "")
    && (forall c | c in q.clients ::
          && (q.clients[c].call.CreateCall? ==> q.clients[c].call.limit == limit)
          && (q.clients[c].pc.AddRow? ==> q.clients[c].call.CreateCall?)
          && (q.clients[c].pc.RenewRow? ==> q.clients[c].pc.prior.reference != ""))
    && |q.db.rows| + |Adding(q)| < limit + n
  }

  lemma AllRowsCounted(db: Db)
    requires forall id | id in db.rows :: db.rows[id].reference != ""
    ensures CountRows(db) == |db.rows|
  {
    assert Counted(db) == db.rows.Keys;
  }

  /** What being served does to the rows and to the client's program point. */
  lemma ServedRows(db: Db, call: Call, pc: ClientPc, draw: Draw, serials: map<TokenKey, nat>, db': Db, pc': ClientPc)
    requires (db', pc') == Perform(db, call, pc, draw, serials)
    requires forall id | id in db.rows :: db.rows[id].reference != ""
    requires (pc.AddRow? ==> call.CreateCall?) && (pc.RenewRow? ==> pc.prior.reference != "")
    ensures forall id | id in db'.rows :: db'.rows[id].reference != ""
    ensures (pc'.AddRow? ==> call.CreateCall? && pc.Count? && CountRows(db) < call.limit) && (pc'.RenewRow? ==> pc'.prior.reference != "")
    ensures db'.rows.Keys == db.rows.Keys || (pc.AddRow? && db'.rows.Keys == db.rows.Keys + {call.id})
    ensures pc'.AddRow? ==> db' == db
  {
    assert REFERENCE[0] == 'c';
    match pc
    case _ =>
  }

  lemma AddingTurn(q: Machine, c: ClientId, r: Machine, call: Call, pc: ClientPc, pc': ClientPc)
    requires c in q.clients && q.clients[c] == Client(call, pc) && r.clients == q.clients[c := Client(call, pc')]
    requires !pc'.AddRow? && (pc.AddRow? ==> call.CreateCall?)
    ensures Adding(r) == Adding(q) - {c}
    ensures pc.AddRow? <==> c in Adding(q)
  {
  }

  lemma AddingIsCreating(r: Machine)
    ensures |Adding(r)| <= |Creating(r)|
  {
    FewerClients(Adding(r), Creating(r));
  }

  lemma OneKeyMore(small: map<Id, Row>, large: map<Id, Row>, id: Id)
    requires large.Keys == small.Keys || large.Keys == small.Keys + {id}
    ensures |large| <= |small| + 1 && (large.Keys == small.Keys ==> |large| == |small|)
  {
    assert |large| == |large.Keys| && |small| == |small.Keys|;
    assert |small.Keys + {id}| <= |small.Keys| + 1;
  }

  /** Serving keeps the count within the bound: passing the count takes a place that is free, and adding the row takes
      the place of the client. */
  lemma ServeCounts(q: Machine, c: ClientId, r: Machine, call: Call, pc: ClientPc, pc': ClientPc, limit: nat, n: nat)
    requires |q.db.rows| + |Adding(q)| < limit + n && |Creating(r)| <= n
    requires c in q.clients && q.clients[c] == Client(call, pc) && r.clients == q.clients[c := Client(call, pc')]
    requires pc.AddRow? ==> call.CreateCall? && !pc'.AddRow?
    requires pc'.AddRow? ==> call.CreateCall? && |q.db.rows| < limit && r.db.rows.Keys == q.db.rows.Keys
    requires r.db.rows.Keys == q.db.rows.Keys || (pc.AddRow? && r.db.rows.Keys == q.db.rows.Keys + {call.id})
    ensures |r.db.rows| + |Adding(r)| < limit + n
  {
    hide Adding, Creating;
    OneKeyMore(q.db.rows, r.db.rows, call.id);
    if pc'.AddRow? {
      AddingIsCreating(r);
    } else {
      AddingTurn(q, c, r, call, pc, pc');
    }
  }

  lemma ServeWithin(q: Machine, c: ClientId, draw: Draw, r: Machine, limit: nat, n: nat)
    requires Within(q, limit, n) && c in q.clients && r == ServeClient(q, c, draw) && |Creating(r)| <= n
    ensures Within(r, limit, n)
  {
    var call, pc := q.clients[c].call, q.clients[c].pc;
    var p := Perform(q.db, call, pc, draw, q.serials);
    ServedShape(q, c, draw, r, p);
    ServedRows(q.db, call, pc, draw, q.serials, p.0, p.1);
    AllRowsCounted(q.db);
    hide Perform, ServeClient, CountRows, Creating, Adding;
    ServeCounts(q, c, r, call, pc, p.1, limit, n);
  }

  lemma ServedShape(q: Machine, c: ClientId, draw: Draw, r: Machine, p: (Db, ClientPc))
    requires c in q.clients && r == ServeClient(q, c, draw)
    requires p == Perform(q.db, q.clients[c].call, q.clients[c].pc, draw, q.serials)
    ensures r.db == p.0 && r.clients == q.clients[c := Client(q.clients[c].call, p.1)]
  {
    hide Perform;
  }

  lemma FewerClients(small: set<ClientId>, large: set<ClientId>)
    requires small <= large
    ensures |small| <= |large|
  {
    if small != large {
      assert large == small + (large - small);
    }
  }

  lemma ShrinksWithin(q: Machine, r: Machine, limit: nat, n: nat)
    requires Within(q, limit, n) && r.db.rows.Keys <= q.db.rows.Keys && r.clients.Keys <= q.clients.Keys
    requires forall id | id in r.db.rows :: r.db.rows[id].reference != ""
    requires forall c | c in r.clients :: r.clients[c] == q.clients[c]
    ensures Within(r, limit, n)
  {
    FewerKeys(r.db.rows.Keys, q.db.rows.Keys);
    assert Adding(r) <= Adding(q);
    FewerClients(Adding(r), Adding(q));
  }

  lemma ArriveWithin(q: Machine, c: ClientId, call: Call, r: Machine, limit: nat, n: nat)
    requires Within(q, limit, n) && r == Arrived(q, c, call) && (call.CreateCall? ==> call.limit == limit)
    ensures Within(r, limit, n)
  {
    assert Adding(r) == Adding(q);
  }

  lemma StepWithin(q: Machine, e: Event, r: Machine, limit: nat, n: nat)
    requires Within(q, limit, n) && r == Step(q, e) && Admits(e, limit) && |Creating(r)| <= n
    ensures Within(r, limit, n)
  {
    hide Perform, ServeClient, Requeue, Queue.Close, Claimable, Creating, Adding, Arrived;
    match e
    case Arrive(c, call) => ArriveWithin(q, c, call, r, limit, n);
    case Serve(c, draw) =>
      if c in q.clients {
        ServeWithin(q, c, draw, r, limit, n);
      }
    case Finish(w, ok) =>
      if w in q.claims {
        ClosingShrinks(q.db, q.claims[w], ok);
      }
      ShrinksWithin(q, r, limit, n);
    case Reboot =>
      RequeueKeepsRows(q.db);
      ShrinksWithin(q, r, limit, n);
    case _ => ShrinksWithin(q, r, limit, n);
  }

  lemma RequeueKeepsRows(db: Db)
    ensures Requeue(db).rows == db.rows
  {
  }

  lemma ClosingShrinks(db: Db, op: OpId, ok: bool)
    ensures var rows := Queue.Close(db, op, ok).rows; rows.Keys <= db.rows.Keys && forall id | id in rows :: rows[id] == db.rows[id]
  {
  }

  /** Creates may overlap, each database call of theirs interleaved with anything: while at most `n` are being served at
      a time, the node never has more than `n - 1` deployments beyond its limit. One at a time keeps the limit. */
  lemma {:induction false} OverlapsBoundTheExcess(events: seq<Event>, limit: nat, n: nat)
    requires n > 0 && forall i | 0 <= i < |events| :: Admits(events[i], limit)
    requires forall i | 0 <= i <= |events| :: |Creating(Run(Init, events[..i]))| <= n
    ensures Within(Run(Init, events), limit, n) && |Run(Init, events).db.rows| <= limit + n - 1
  {
    hide Step, Within, Admits, Creating;
    if events == [] {
      WithinAtFirst(limit, n);
    } else {
      var m := |events| - 1;
      var before := events[..m];
      forall i | 0 <= i <= m ensures |Creating(Run(Init, before[..i]))| <= n {
        assert before[..i] == events[..i];
      }
      OverlapsBoundTheExcess(before, limit, n);
      assert events[..|events|] == events;
      StepWithin(Run(Init, before), events[m], Run(Init, events), limit, n);
    }
    WithinTells(Run(Init, events), limit, n);
  }

  lemma WithinAtFirst(limit: nat, n: nat)
    requires n > 0
    ensures Within(Init, limit, n)
  {
    assert Adding(Init) == {};
  }

  lemma WithinTells(q: Machine, limit: nat, n: nat)
    requires Within(q, limit, n)
    ensures |q.db.rows| <= limit + n - 1
  {
  }
}

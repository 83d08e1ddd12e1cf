/** What a whole API call does to the database when nothing runs beside it, however early it stops. */
module Submission {
  import opened Common
  import opened Lifecycle
  import opened Store
  import opened Queue
  import Agent

  /** The row a create may write: the deployment was failed or deleted, or unknown to a node with capacity left, and is
      pending afterwards, with the request and the bootstrap secret of the call. Its sealed secret and its reference stay
      when it has them, and are the call's and the usual one otherwise. */
  ghost predicate RowWritten(db: Db, db': Db, call: Call) {
    && call.CreateCall?
    && (if call.id in db.rows then db.rows[call.id].state == Failed || db.rows[call.id].state == Deleted
        else CountRows(db) < call.limit && call.memoryOk)
    && call.id in db'.rows
    && db'.rows == db.rows[call.id := db'.rows[call.id]]
    && var row := db'.rows[call.id];
       && row.request == call.request && row.state == Pending && row.bootstrap == Some(call.bootstrap) && row.failedStep == ""
       && (if call.id in db.rows && db.rows[call.id].secret.Some? then
             row.secret == db.rows[call.id].secret && row.reference == db.rows[call.id].reference
           else row.secret == Some(call.secret) && row.reference == REFERENCE)
  }

  ghost predicate Inserted(db: Db, db': Db, call: Call) {
    && call.id !in db.active && call.id in db'.active
    && var op := db'.active[call.id];
       && op !in db.ops && op in db'.ops
       && db'.ops == db.ops[op := db'.ops[op]] && db'.active == db.active[call.id := op]
       && AsksFor(call, db'.ops[op]) && db'.ops[op].status == Queued
       && (call.CreateCall? ==> RowWritten(db, db', call))
  }

  ghost predicate TokensFit(db: Db) {
    forall k :: k in db.tokens ==> k.id in db.rows
  }

  /** The effect so far of a call on the database `db` it found. */
  ghost predicate Effect(db: Db, db': Db, call: Call) {
    && (db'.rows == db.rows || RowWritten(db, db', call))
    && ((db'.ops == db.ops && db'.active == db.active) || (Inserted(db, db', call) && !call.TokenCall? && call.id in db'.rows))
    && TokensFit(db')
  }

  /** What a client's program point tells about the calls it has made. */
  ghost predicate PointOk(db: Db, db': Db, client: Client) {
    var call, pc := client.call, client.pc;
    && (pc.LookUp? || pc.Inspect? || pc.Count? || pc.AddRow? || pc.RenewRow? || pc.Issue? || pc.Spend? ==> db' == db)
    && (pc.Insert? ==> db'.ops == db.ops && db'.active == db.active && call.id in db'.rows && !call.TokenCall?)
    && (pc.Insert? && call.CreateCall? ==> RowWritten(db, db', call))
    && (pc.AddRow? || pc.RenewRow? ==> call.CreateCall?)
    && (pc.AddRow? ==> CountRows(db) < call.limit && call.memoryOk)
    && (pc.RenewRow? ==> call.id in db.rows && pc.prior == db.rows[call.id] && (pc.prior.state == Failed || pc.prior.state == Deleted))
    && (pc.Issue? ==> call.id in db.rows && call.TokenCall?)
    && (pc.Inspect? || pc.Count? ==> !call.PurgeCall?)
    && (pc.Spend? ==> call.PurgeCall?)
  }

  lemma ReadsKeep(db: Db, cur: Db, call: Call, pc: ClientPc, draw: Draw, serials: map<TokenKey, nat>, db': Db, pc': ClientPc)
    requires TokensFit(db) && Effect(db, cur, call) && PointOk(db, cur, Client(call, pc))
    requires (db', pc') == Perform(cur, call, pc, draw, serials)
    requires pc.LookUp? || pc.Inspect? || pc.Count? || pc.Remember? || pc.Answered?
    ensures Effect(db, db', call) && PointOk(db, db', Client(call, pc'))
  {
    match pc
    case LookUp =>
    case Inspect =>
    case Count =>
    case Remember(_) =>
    case Answered(_) =>
  }

  lemma WritesKeep(db: Db, cur: Db, call: Call, pc: ClientPc, draw: Draw, serials: map<TokenKey, nat>, db': Db, pc': ClientPc)
    requires TokensFit(db) && Effect(db, cur, call) && PointOk(db, cur, Client(call, pc))
    requires (db', pc') == Perform(cur, call, pc, draw, serials)
    requires pc.AddRow? || pc.RenewRow? || pc.Issue? || pc.Spend? || pc.Insert?
    ensures Effect(db, db', call) && PointOk(db, db', Client(call, pc'))
  {
    match pc
    case AddRow =>
    case RenewRow(prior) =>
    case Issue =>
    case Spend =>
    case Insert(_) =>
  }

  lemma PerformKeeps(db: Db, cur: Db, call: Call, pc: ClientPc, draw: Draw, serials: map<TokenKey, nat>, db': Db, pc': ClientPc)
    requires TokensFit(db) && Effect(db, cur, call) && PointOk(db, cur, Client(call, pc))
    requires (db', pc') == Perform(cur, call, pc, draw, serials)
    ensures Effect(db, db', call) && PointOk(db, db', Client(call, pc'))
  {
    hide *;
    if pc.AddRow? || pc.RenewRow? || pc.Issue? || pc.Spend? || pc.Insert? {
      WritesKeep(db, cur, call, pc, draw, serials, db', pc');
    } else {
      ReadsKeep(db, cur, call, pc, draw, serials, db', pc');
    }
  }

  /** The queue while one call is being served with nothing beside it. */
  ghost predicate Serving(q: Machine, cur: Machine, call: Call) {
    && cur.claims == q.claims
    && (cur.clients == map[] || (Agent.CALLER in cur.clients && cur.clients.Keys == {Agent.CALLER}
          && cur.clients[Agent.CALLER].call == call && PointOk(q.db, cur.db, cur.clients[Agent.CALLER])))
    && (Routable(call) || cur.db == q.db)
    && Effect(q.db, cur.db, call)
  }

  lemma ServeKeepsServing(q: Machine, cur: Machine, call: Call, draw: Draw, next: Machine)
    requires TokensFit(q.db) && Serving(q, cur, call) && next == Step(cur, Serve(Agent.CALLER, draw))
    requires cur.clients != map[] ==> Routable(call)
    ensures Serving(q, next, call) && (next.clients != map[] ==> cur.clients != map[])
  {
    if cur.clients != map[] {
      var client := cur.clients[Agent.CALLER];
      var p := Perform(cur.db, call, client.pc, draw, cur.serials);
      PerformKeeps(q.db, cur.db, call, client.pc, draw, cur.serials, p.0, p.1);
      assert client == Client(call, client.pc);
      assert next.clients[Agent.CALLER] == Client(call, p.1) && next.db == p.0;
    }
  }

  lemma {:induction false} ServingsKeep(q: Machine, cur: Machine, call: Call, draws: seq<Draw>)
    requires TokensFit(q.db) && Serving(q, cur, call) && (cur.clients != map[] ==> Routable(call))
    ensures var r := Run(cur, Agent.Servings(draws)); Serving(q, r, call) && (r.clients != map[] ==> Routable(call))
  {
    var s := Agent.Servings(draws);
    if draws != [] {
      var n := |draws| - 1;
      assert s[..n] == Agent.Servings(draws[..n]) && s[n] == Serve(Agent.CALLER, draws[n]);
      ServingsKeep(q, cur, call, draws[..n]);
      ServeKeepsServing(q, Run(cur, s[..n]), call, draws[n], Run(cur, s));
    }
  }

  /** A submission that runs without interference, to its end or to any earlier point, leaves the database with
      at most one row made pending and at most one new queued operation. */
  lemma SubmitEffect(q: Machine, call: Call, draws: seq<Draw>, r: Machine)
    requires TokensFit(q.db) && q.clients == map[]
    requires r == Run(q, [Arrive(Agent.CALLER, call)] + Agent.Servings(draws) + [Leave(Agent.CALLER)])
    ensures r.claims == q.claims && r.clients == map[] && Effect(q.db, r.db, call) && (Routable(call) || r.db == q.db)
  {
    hide *;
    var q1 := Arrived(q, Agent.CALLER, call);
    var q2 := Run(q1, Agent.Servings(draws));
    SubmitRuns(q, call, draws);
    ArrivedServing(q, call);
    ServingsKeep(q, q1, call, draws);
    Left(q, q2, call, r);
  }

  lemma SubmitRuns(q: Machine, call: Call, draws: seq<Draw>)
    ensures Run(q, [Arrive(Agent.CALLER, call)] + Agent.Servings(draws) + [Leave(Agent.CALLER)]) ==
      Step(Run(Arrived(q, Agent.CALLER, call), Agent.Servings(draws)), Leave(Agent.CALLER))
  {
    hide Arrived, Agent.Servings;
    var arrive, serve, leave := [Arrive(Agent.CALLER, call)], Agent.Servings(draws), [Leave(Agent.CALLER)];
    RunAppends(q, arrive + serve, leave);
    RunAppends(q, arrive, serve);
    Agent.RunOne(q, arrive[0]);
    Agent.RunOne(Run(q, arrive + serve), leave[0]);
  }

  lemma ArrivedServing(q: Machine, call: Call)
    requires TokensFit(q.db) && q.clients == map[]
    ensures var q1 := Arrived(q, Agent.CALLER, call); Serving(q, q1, call) && (q1.clients != map[] ==> Routable(call))
  {
  }

  lemma Left(q: Machine, q2: Machine, call: Call, r: Machine)
    requires Serving(q, q2, call) && r == Step(q2, Leave(Agent.CALLER))
    ensures r.claims == q.claims && r.clients == map[] && Effect(q.db, r.db, call) && (Routable(call) || r.db == q.db)
  {
    hide Effect, PointOk;
  }
}

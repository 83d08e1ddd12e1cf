/** The API calls as the service makes them on the repository, one database call after another. Each does what a
    client of the module Queue does when it is served without interruption. */
module Service {
  import opened Common
  import opened Lifecycle
  import opened Store
  import opened Queue
  import opened Sqlite
  import Agent
  import Idempotency

  /** A client served up to `n` times in a row. */
  function ServedTimes(db: Db, call: Call, pc: ClientPc, draw: Draw, serials: map<TokenKey, nat>, n: nat): (Db, ClientPc)
    decreases n
  {
    if n == 0 || pc.Answered? then (db, pc)
    else
      var p := Perform(db, call, pc, draw, serials);
      ServedTimes(p.0, call, p.1, draw, serials, n - 1)
  }

  /** Six database calls answer every API call. */
  function Outcome(db: Db, call: Call, draw: Draw, serials: map<TokenKey, nat>): (Db, ClientPc) {
    ServedTimes(db, call, LookUp, draw, serials, 6)
  }

  lemma Turn(db: Db, call: Call, pc: ClientPc, draw: Draw, serials: map<TokenKey, nat>, n: nat, db': Db, pc': ClientPc)
    requires !pc.Answered? && (db', pc') == Perform(db, call, pc, draw, serials)
    ensures ServedTimes(db, call, pc, draw, serials, n + 1) == ServedTimes(db', call, pc', draw, serials, n)
  {
    hide Perform;
  }

  lemma Over(db: Db, call: Call, answer: Answer, draw: Draw, serials: map<TokenKey, nat>, n: nat)
    ensures ServedTimes(db, call, Answered(answer), draw, serials, n) == (db, Answered(answer))
  {
  }

  // ---- The same calls on the machine ----

  lemma SerialsOnlyForSpend(db: Db, call: Call, pc: ClientPc, draw: Draw, serials: map<TokenKey, nat>, others: map<TokenKey, nat>)
    requires !pc.Spend?
    ensures Perform(db, call, pc, draw, serials) == Perform(db, call, pc, draw, others)
  {
    match pc
    case _ =>
  }

  /** Being served once more, at the end. */
  lemma {:induction false} ServedLast(db: Db, call: Call, pc: ClientPc, draw: Draw, serials: map<TokenKey, nat>, n: nat)
    ensures var r := ServedTimes(db, call, pc, draw, serials, n);
      ServedTimes(db, call, pc, draw, serials, n + 1) == if r.1.Answered? then r else Perform(r.0, call, r.1, draw, serials)
    decreases n
  {
    hide Perform;
    if n > 0 && !pc.Answered? {
      var p := Perform(db, call, pc, draw, serials);
      ServedLast(p.0, call, p.1, draw, serials, n - 1);
    } else if !pc.Answered? {
      var p := Perform(db, call, pc, draw, serials);
      assert ServedTimes(p.0, call, p.1, draw, serials, 0) == p;
    }
  }

  /** The machine serves the caller as the methods below do. */
  ghost predicate Tracks(q: Machine, cur: Machine, call: Call, r: (Db, ClientPc)) {
    && cur.clients == map[Agent.CALLER := Client(call, r.1)]
    && cur.db == r.0
    && (r.1.LookUp? || r.1.Spend? ==> cur.serials == q.serials)
  }

  lemma PerformedSerials(db: Db, call: Call, pc: ClientPc, draw: Draw, serials: map<TokenKey, nat>)
    ensures var pc' := Perform(db, call, pc, draw, serials).1;
      && (pc'.LookUp? ==> pc.LookUp?)
      && (pc'.Spend? ==> pc.LookUp? || pc.Spend?)
  {
    match pc
    case _ =>
  }

  lemma ServeShape(cur: Machine, call: Call, pc: ClientPc, draw: Draw, next: Machine)
    requires cur.clients == map[Agent.CALLER := Client(call, pc)] && next == ServeClient(cur, Agent.CALLER, draw)
    ensures var p := Perform(cur.db, call, pc, draw, cur.serials);
      && next.clients == map[Agent.CALLER := Client(call, p.1)] && next.db == p.0
      && (!pc.Issue? ==> next.serials == cur.serials)
  {
    hide Perform;
    assert cur.clients[Agent.CALLER] == Client(call, pc);
  }

  lemma ServeTracks(q: Machine, cur: Machine, call: Call, draw: Draw, r: (Db, ClientPc), next: Machine)
    requires Tracks(q, cur, call, r) && next == ServeClient(cur, Agent.CALLER, draw)
    ensures Tracks(q, next, call, if r.1.Answered? then r else Perform(r.0, call, r.1, draw, q.serials))
  {
    var pc := r.1;
    PerformedSerials(r.0, call, pc, draw, cur.serials);
    if !pc.Spend? {
      SerialsOnlyForSpend(r.0, call, pc, draw, cur.serials, q.serials);
    }
    assert pc.Answered? ==> Perform(r.0, call, pc, draw, cur.serials) == r;
    hide Perform, ServeClient;
    ServeShape(cur, call, pc, draw, next);
  }

  function Same(draw: Draw, n: nat): seq<Draw> {
    seq(n, _ => draw)
  }

  lemma {:induction false} ServingTracks(q: Machine, call: Call, draw: Draw, n: nat)
    requires q.clients == map[] && Routable(call)
    ensures Tracks(q, Run(Arrived(q, Agent.CALLER, call), Agent.Servings(Same(draw, n))), call,
                   ServedTimes(q.db, call, LookUp, draw, q.serials, n))
  {
    hide Perform, ServeClient;
    var s := Agent.Servings(Same(draw, n));
    if n > 0 {
      assert s[..n - 1] == Agent.Servings(Same(draw, n - 1)) && s[n - 1] == Serve(Agent.CALLER, draw);
      ServingTracks(q, call, draw, n - 1);
      var cur, next := Run(Arrived(q, Agent.CALLER, call), s[..n - 1]), Run(Arrived(q, Agent.CALLER, call), s);
      ServedLast(q.db, call, LookUp, draw, q.serials, n - 1);
      ServeTracks(q, cur, call, draw, ServedTimes(q.db, call, LookUp, draw, q.serials, n - 1), next);
    }
  }

  /** The methods below do to the tables what a submission of the agent does: serving the call six times with
      nothing beside it. */
  lemma MethodsAreSubmissions(a: Agent.World, call: Call, draw: Draw)
    requires a.q.clients == map[] && Routable(call)
    ensures Agent.Step(a, Agent.Submit(call, Same(draw, 6))).q.db == Outcome(a.q.db, call, draw, a.q.serials).0
    ensures Idempotency.Complete(a.q, call, Same(draw, 6)) <==> Outcome(a.q.db, call, draw, a.q.serials).1.Answered?
  {
    hide Perform, ServeClient, ServedTimes, Agent.Step;
    var draws := Same(draw, 6);
    ServingTracks(a.q, call, draw, 6);
    Agent.StepIsCalls(a, Agent.Submit(call, draws));
    Idempotency.SubmitIsAtEnd(a.q, call, draws);
    assert Agent.Calls(a, Agent.Submit(call, draws)) ==
      [Arrive(Agent.CALLER, call)] + Agent.Servings(draws) + [Leave(Agent.CALLER)];
  }

  class Calls {
    const repo: Repository

    constructor (repo: Repository)
      ensures this.repo == repo
    {
      this.repo := repo;
    }

    /** existingIdempotency. */
    method ExistingIdempotency(call: Call) returns (answer: Option<Answer>)
      requires repo.Valid()
      ensures (if answer.None? then call.key !in repo.keys else AfterLookUp(repo.Contents(), call) == Answered(answer.value))
    {
      var entry := repo.GetIdempotency(call.key);
      if entry.None? {
        return None;
      }
      if entry.value.hash != call.hash {
        return Some(Rejected(KeyReused));
      }
      return Some(Replayed(entry.value.response));
    }

    /** The operation and the stored response, common to all calls that queue something. */
    method Enqueue(call: Call, ghost serial: Option<nat>, draw: Draw, ghost serials: map<TokenKey, nat>, ghost n: nat) returns (answer: Answer)
      requires repo.Valid()
      modifies repo
      ensures repo.Valid()
      ensures (repo.Contents(), Answered(answer)) == ServedTimes(old(repo.Contents()), call, Insert(serial), draw, serials, n + 2)
    {
      hide ServedTimes;
      ghost var db := repo.Contents();
      var reply := repo.CreateOperation(draw.op, NewOperation(call, draw.now));
      if reply != Done {
        answer := Rejected(Busy);
        Turn(db, call, Insert(serial), draw, serials, n + 1, repo.Contents(), Answered(answer));
        Over(repo.Contents(), call, answer, draw, serials, n + 1);
        return;
      }
      var response := Accepted(draw.op, call.id, Aliases(call));
      Turn(db, call, Insert(serial), draw, serials, n + 1, repo.Contents(), ClientPc.Remember(response));
      answer := Remember(call, response, draw, serials, n);
    }

    method Remember(call: Call, response: Response, draw: Draw, ghost serials: map<TokenKey, nat>, ghost n: nat) returns (answer: Answer)
      requires repo.Valid()
      modifies repo
      ensures repo.Valid()
      ensures (repo.Contents(), Answered(answer)) == ServedTimes(old(repo.Contents()), call, ClientPc.Remember(response), draw, serials, n + 1)
    {
      hide ServedTimes;
      ghost var db := repo.Contents();
      var reply := repo.PutIdempotency(call.key, Remembered(call.hash, response));
      answer := if reply == Done then Fresh(response) else Rejected(KeyReused);
      Turn(db, call, ClientPc.Remember(response), draw, serials, n, repo.Contents(), Answered(answer));
      Over(repo.Contents(), call, answer, draw, serials, n);
    }

    /** The part of SubmitCreate for a deployment the node does not know: capacity, then the new row. */
    method AddDeployment(call: Call, draw: Draw, ghost serials: map<TokenKey, nat>) returns (answer: Answer)
      requires repo.Valid() && call.CreateCall? && call.id !in repo.rows
      modifies repo
      ensures repo.Valid()
      ensures (repo.Contents(), Answered(answer)) == ServedTimes(old(repo.Contents()), call, Count, draw, serials, 4)
    {
      hide ServedTimes;
      ghost var db := repo.Contents();
      var n := repo.CountDeployments();
      if n >= call.limit || !call.memoryOk {
        answer := Rejected(Capacity);
        Turn(db, call, Count, draw, serials, 3, db, Answered(answer));
        Over(db, call, answer, draw, serials, 3);
        return;
      }
      Turn(db, call, Count, draw, serials, 3, db, AddRow);
      var reply := repo.CreateDeployment(call.id, NewRow(call));
      assert reply == Done;
      Turn(db, call, AddRow, draw, serials, 2, repo.Contents(), Insert(None));
      answer := Enqueue(call, None, draw, serials, 0);
    }

    /** SubmitCreate, after validation. With nothing beside it the row it has looked up cannot appear or vanish. */
    method SubmitCreate(call: Call, draw: Draw, ghost serials: map<TokenKey, nat>) returns (answer: Answer)
      requires repo.Valid() && call.CreateCall?
      modifies repo
      ensures repo.Valid() && (repo.Contents(), Answered(answer)) == Outcome(old(repo.Contents()), call, draw, serials)
    {
      hide ServedTimes;
      ghost var db := repo.Contents();
      var known := ExistingIdempotency(call);
      if known.Some? {
        answer := known.value;
        Turn(db, call, LookUp, draw, serials, 5, db, Answered(answer));
        Over(db, call, answer, draw, serials, 5);
        return;
      }
      Turn(db, call, LookUp, draw, serials, 5, db, Inspect);
      var prior := repo.GetDeployment(call.id);
      if prior.None? {
        Turn(db, call, Inspect, draw, serials, 4, db, Count);
        answer := AddDeployment(call, draw, serials);
      } else if prior.value.state == Deleted || prior.value.state == Failed {
        Turn(db, call, Inspect, draw, serials, 4, db, RenewRow(prior.value));
        var reply := repo.SaveDeployment(call.id, RenewedRow(prior.value, call));
        assert reply == Done;
        Turn(db, call, RenewRow(prior.value), draw, serials, 3, repo.Contents(), Insert(None));
        answer := Enqueue(call, None, draw, serials, 1);
      } else {
        answer := Rejected(Busy);
        Turn(db, call, Inspect, draw, serials, 4, db, Answered(answer));
        Over(db, call, answer, draw, serials, 4);
      }
    }

    /** Submit, SubmitUpgrade and SubmitAdminReset, after their own checks. */
    method Submit(call: Call, draw: Draw, ghost serials: map<TokenKey, nat>) returns (answer: Answer)
      requires repo.Valid() && call.ActionCall?
      modifies repo
      ensures repo.Valid() && (repo.Contents(), Answered(answer)) == Outcome(old(repo.Contents()), call, draw, serials)
    {
      hide ServedTimes;
      ghost var db := repo.Contents();
      var known := ExistingIdempotency(call);
      if known.Some? {
        answer := known.value;
        Turn(db, call, LookUp, draw, serials, 5, db, Answered(answer));
        Over(db, call, answer, draw, serials, 5);
        return;
      }
      Turn(db, call, LookUp, draw, serials, 5, db, Inspect);
      var row := repo.GetDeployment(call.id);
      if row.None? {
        answer := Rejected(NoDeployment);
        Turn(db, call, Inspect, draw, serials, 4, db, Answered(answer));
        Over(db, call, answer, draw, serials, 4);
        return;
      }
      Turn(db, call, Inspect, draw, serials, 4, db, Insert(None));
      answer := Enqueue(call, None, draw, serials, 2);
    }

    method IssuePurgeToken(call: Call, draw: Draw, ghost serials: map<TokenKey, nat>) returns (answer: Answer)
      requires repo.Valid() && call.TokenCall?
      modifies repo
      ensures repo.Valid() && (repo.Contents(), Answered(answer)) == Outcome(old(repo.Contents()), call, draw, serials)
    {
      hide ServedTimes;
      ghost var db := repo.Contents();
      var known := ExistingIdempotency(call);
      if known.Some? {
        answer := known.value;
        Turn(db, call, LookUp, draw, serials, 5, db, Answered(answer));
        Over(db, call, answer, draw, serials, 5);
        return;
      }
      Turn(db, call, LookUp, draw, serials, 5, db, Inspect);
      var row := repo.GetDeployment(call.id);
      if row.None? {
        answer := Rejected(NoDeployment);
        Turn(db, call, Inspect, draw, serials, 4, db, Answered(answer));
        Over(db, call, answer, draw, serials, 4);
        return;
      }
      Turn(db, call, Inspect, draw, serials, 4, db, Issue);
      var reply := repo.CreatePurgeToken(TokenKey(call.id, Sha256(draw.token)), draw.expires);
      if reply != Done {
        answer := Rejected(Busy);
        Turn(db, call, Issue, draw, serials, 3, repo.Contents(), Answered(answer));
        Over(repo.Contents(), call, answer, draw, serials, 3);
        return;
      }
      var response := TokenIssued(draw.token, draw.expires);
      Turn(db, call, Issue, draw, serials, 3, repo.Contents(), ClientPc.Remember(response));
      answer := Remember(call, response, draw, serials, 2);
    }

    method SubmitPurge(call: Call, draw: Draw, ghost serials: map<TokenKey, nat>) returns (answer: Answer)
      requires repo.Valid() && call.PurgeCall? && forall k | k in repo.tokens :: k in serials
      modifies repo
      ensures repo.Valid() && (repo.Contents(), Answered(answer)) == Outcome(old(repo.Contents()), call, draw, serials)
    {
      hide ServedTimes;
      ghost var db := repo.Contents();
      var known := ExistingIdempotency(call);
      if known.Some? {
        answer := known.value;
        Turn(db, call, LookUp, draw, serials, 5, db, Answered(answer));
        Over(db, call, answer, draw, serials, 5);
        return;
      }
      Turn(db, call, LookUp, draw, serials, 5, db, ClientPc.Spend);
      var key := TokenKey(call.id, Sha256(call.token));
      var spent := repo.ConsumePurgeToken(key, draw.now);
      if !spent {
        answer := Rejected(BadToken);
        Turn(db, call, ClientPc.Spend, draw, serials, 4, repo.Contents(), Answered(answer));
        Over(repo.Contents(), call, answer, draw, serials, 4);
        return;
      }
      Turn(db, call, ClientPc.Spend, draw, serials, 4, repo.Contents(), Insert(Some(serials[key])));
      answer := Enqueue(call, Some(serials[key]), draw, serials, 2);
    }
  }
}

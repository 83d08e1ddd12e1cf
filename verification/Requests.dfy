/** What clients ask for is what is done: every operation, and every procedure a worker runs, was asked for by a call with
    its deployment, kind and payload, and a create makes the panel of the request that was sent. */
module Requests {
  import opened Common
  import opened Lifecycle
  import opened Store
  import opened Host
  import opened Programs
  import opened Invariant
  import opened Agent
  import opened Soundness
  import opened Convergence
  import Outcomes
  import Progress
  import Queue
  import Submission

  // ---- Operations ----

  /** The calls that have arrived on one of the routes. */
  ghost function Arrivals(events: seq<Queue.Event>): set<Queue.Call> {
    set i | 0 <= i < |events| && events[i].Arrive? && Queue.Routable(events[i].call) :: events[i].call
  }

  /** One of the calls asks for this operation. A purge forgets the payloads of its deployment's operations. */
  ghost predicate Asked(calls: set<Queue.Call>, o: Operation) {
    || (exists call :: call in calls && Queue.AsksFor(call, o))
    || (!IsActive(o.status) && o.payload == NoPayload && exists call, p :: call in calls && Queue.Asks(call, o.deployment, o.kind, p))
  }

  ghost predicate AllAsked(calls: set<Queue.Call>, q: Queue.Machine) {
    && (forall c :: c in q.clients ==> q.clients[c].call in calls && (q.clients[c].pc.Insert? ==> !q.clients[c].call.TokenCall?))
    && (forall o :: o in q.db.ops ==> Asked(calls, q.db.ops[o]))
  }

  lemma MoreCalls(calls: set<Queue.Call>, more: set<Queue.Call>, o: Operation)
    requires Asked(calls, o) && calls <= more
    ensures Asked(more, o)
  {
  }

  lemma OtherStatus(calls: set<Queue.Call>, o: Operation, s: Status)
    requires Asked(calls, o) && (IsActive(s) ==> IsActive(o.status))
    ensures Asked(calls, o.(status := s))
  {
    if call :| call in calls && Queue.AsksFor(call, o) {
      assert Queue.AsksFor(call, o.(status := s));
    }
  }

  lemma PerformAsks(db: Db, call: Queue.Call, pc: Queue.ClientPc, draw: Queue.Draw, serials: map<TokenKey, nat>)
    requires pc.Insert? ==> !call.TokenCall?
    ensures Queue.Perform(db, call, pc, draw, serials).1.Insert? ==> !call.TokenCall?
  {
  }

  lemma ServeIs(q: Queue.Machine, c: ClientId, draw: Queue.Draw)
    requires c in q.clients
    ensures var r, p := Queue.ServeClient(q, c, draw), Queue.Perform(q.db, q.clients[c].call, q.clients[c].pc, draw, q.serials);
      r.db == p.0 && r.clients == q.clients[c := Queue.Client(q.clients[c].call, p.1)]
  {
    hide Queue.Perform;
  }

  /** What a served call does to the operations. */
  lemma PerformQueues(db: Db, call: Queue.Call, pc: Queue.ClientPc, draw: Queue.Draw, serials: map<TokenKey, nat>)
    requires pc.Insert? ==> !call.TokenCall?
    ensures var db' := Queue.Perform(db, call, pc, draw, serials).0;
      forall o | o in db'.ops :: if o in db.ops then db'.ops[o] == db.ops[o] else Queue.AsksFor(call, db'.ops[o])
  {
    Queue.PerformEffect(db, call, pc, draw, serials);
    hide Queue.Perform, Queue.AsksFor;
  }

  lemma ServeAsks(calls: set<Queue.Call>, q: Queue.Machine, c: ClientId, draw: Queue.Draw)
    requires AllAsked(calls, q) && c in q.clients
    ensures AllAsked(calls, Queue.ServeClient(q, c, draw))
  {
    hide Queue.Perform, Queue.ServeClient, Queue.AsksFor, Asked;
    var call, pc, r := q.clients[c].call, q.clients[c].pc, Queue.ServeClient(q, c, draw);
    ServeIs(q, c, draw);
    PerformQueues(q.db, call, pc, draw, q.serials);
    PerformAsks(q.db, call, pc, draw, q.serials);
    forall o | o in r.db.ops ensures Asked(calls, r.db.ops[o]) {
      if o !in q.db.ops {
        NewlyAsked(calls, call, r.db.ops[o]);
      }
    }
  }

  lemma NewlyAsked(calls: set<Queue.Call>, call: Queue.Call, o: Operation)
    requires call in calls && Queue.AsksFor(call, o)
    ensures Asked(calls, o)
  {
  }

  lemma CloseAsks(calls: set<Queue.Call>, db: Db, op: OpId, ok: bool, o: OpId)
    requires op in db.ops && forall p :: p in db.ops ==> Asked(calls, db.ops[p])
    requires IndexOk(db) && IsActive(db.ops[op].status) && o in Queue.Close(db, op, ok).ops
    ensures Asked(calls, Queue.Close(db, op, ok).ops[o])
  {
    var was, now := db.ops[o], Queue.Close(db, op, ok).ops[o];
    if call :| call in calls && Queue.AsksFor(call, was) {
      assert Queue.Asks(call, now.deployment, now.kind, was.payload);
      if now.payload == was.payload {
        assert Queue.AsksFor(call, now);
      } else {
        assert !IsActive(now.status);
      }
    }
  }

  lemma FinishAsks(calls: set<Queue.Call>, q: Queue.Machine, w: WorkerId, ok: bool)
    requires Queue.Exclusive(q) && AllAsked(calls, q)
    ensures AllAsked(calls, Queue.Finished(q, w, ok))
  {
    if w in q.claims {
      var r := Queue.Finished(q, w, ok);
      assert IndexOk(q.db) && q.claims[w] in q.db.ops && IsActive(q.db.ops[q.claims[w]].status);
      hide Queue.Exclusive, IndexOk, Queue.Close, Asked;
      forall o | o in r.db.ops ensures Asked(calls, r.db.ops[o]) {
        CloseAsks(calls, q.db, q.claims[w], ok, o);
      }
    }
  }

  lemma RebootAsks(calls: set<Queue.Call>, q: Queue.Machine)
    requires AllAsked(calls, q)
    ensures AllAsked(calls, Queue.Rebooted(q))
  {
    hide Asked;
    forall o | o in q.db.ops && q.db.ops[o].status == Running ensures Asked(calls, q.db.ops[o].(status := Queued)) {
      OtherStatus(calls, q.db.ops[o], Queued);
    }
  }

  lemma ClaimAsks(calls: set<Queue.Call>, q: Queue.Machine, w: WorkerId, op: OpId)
    requires AllAsked(calls, q)
    ensures AllAsked(calls, Queue.Claimed(q, w, op))
  {
    hide Asked;
    if w !in q.claims && Claimable(q.db, op) {
      OtherStatus(calls, q.db.ops[op], Running);
    }
  }

  lemma WiderAsks(calls: set<Queue.Call>, more: set<Queue.Call>, q: Queue.Machine)
    requires AllAsked(calls, q) && calls <= more
    ensures AllAsked(more, q)
  {
    hide Asked;
    forall o | o in q.db.ops ensures Asked(more, q.db.ops[o]) {
      MoreCalls(calls, more, q.db.ops[o]);
    }
  }

  lemma StepAsks(calls: set<Queue.Call>, q: Queue.Machine, e: Queue.Event, more: set<Queue.Call>)
    requires Queue.Exclusive(q) && AllAsked(calls, q) && calls <= more && (e.Arrive? && Queue.Routable(e.call) ==> e.call in more)
    ensures AllAsked(more, Queue.Step(q, e))
  {
    hide Queue.Exclusive, Asked;
    WiderAsks(calls, more, q);
    match e
    case Serve(c, draw) =>
      if c in q.clients {
        ServeAsks(more, q, c, draw);
      }
    case Claim(w, op) => ClaimAsks(more, q, w, op);
    case Finish(w, ok) => FinishAsks(more, q, w, ok);
    case Reboot => RebootAsks(more, q);
    case _ =>
  }

  /** In every run every operation was asked for by a call that has arrived: it is on the deployment of that call, of the
      kind and with the payload the call asks for, a purge's forgetting aside. */
  lemma {:induction false} OperationsWereAsked(events: seq<Queue.Event>)
    ensures AllAsked(Arrivals(events), Queue.Run(Queue.Init, events))
  {
    hide AllAsked, Queue.Step, Queue.Exclusive;
    if events == [] {
      NobodyAsked();
    } else {
      var n := |events| - 1;
      OperationsWereAsked(events[..n]);
      Queue.RunKeepsExclusive(Queue.Init, events[..n]);
      assert Queue.Exclusive(Queue.Init) by {
        NobodyAsked();
      }
      ArrivalsGrow(events);
      StepAsks(Arrivals(events[..n]), Queue.Run(Queue.Init, events[..n]), events[n], Arrivals(events));
    }
  }

  lemma NobodyAsked()
    ensures AllAsked(Arrivals([]), Queue.Init) && Queue.Exclusive(Queue.Init)
  {
  }

  lemma ArrivalsGrow(events: seq<Queue.Event>)
    requires events != []
    ensures Arrivals(events[..|events| - 1]) <= Arrivals(events)
    ensures var e := events[|events| - 1]; e.Arrive? && Queue.Routable(e.call) ==> e.call in Arrivals(events)
  {
    var n := |events| - 1;
    forall call | call in Arrivals(events[..n]) ensures call in Arrivals(events) {
      var i :| 0 <= i < n && events[..n][i].Arrive? && Queue.Routable(events[..n][i].call) && events[..n][i].call == call;
      assert events[i].Arrive? && events[i].call == call;
    }
  }

  // ---- Procedures ----

  /** The calls that clients have made, on one of the routes, in a run of the agent. */
  ghost function Submissions(events: seq<Event>): set<Queue.Call> {
    set i | 0 <= i < |events| && events[i].Submit? && Queue.Routable(events[i].call) :: events[i].call
  }

  ghost predicate JobAsked(calls: set<Queue.Call>, job: Job) {
    exists call :: call in calls && Queue.Asks(call, job.id, job.kind, job.payload)
  }

  lemma ServingsBringNobody(draws: seq<Queue.Draw>)
    ensures Arrivals(Agent.Servings(draws)) == {}
  {
  }

  lemma ArrivalsOf(s: seq<Queue.Event>, t: seq<Queue.Event>)
    ensures Arrivals(s + t) == Arrivals(s) + Arrivals(t)
  {
    forall call | call in Arrivals(s) + Arrivals(t) ensures call in Arrivals(s + t) {
      if call in Arrivals(s) {
        var i :| 0 <= i < |s| && s[i].Arrive? && Queue.Routable(s[i].call) && s[i].call == call;
        assert (s + t)[i] == s[i];
      } else {
        var i :| 0 <= i < |t| && t[i].Arrive? && Queue.Routable(t[i].call) && t[i].call == call;
        assert (s + t)[|s| + i] == t[i];
      }
    }
  }

  /** Only a submission brings a client. */
  lemma CallsBring(a: World, e: Event)
    ensures Arrivals(Calls(a, e)) <= if e.Submit? && Queue.Routable(e.call) then {e.call} else {}
  {
    if e.Submit? {
      ArrivalsOf([Queue.Arrive(CALLER, e.call)] + Servings(e.draws), [Queue.Leave(CALLER)]);
      ArrivalsOf([Queue.Arrive(CALLER, e.call)], Servings(e.draws));
      ServingsBringNobody(e.draws);
    }
  }

  lemma SubmissionsGrow(events: seq<Event>)
    requires events != []
    ensures Submissions(events[..|events| - 1]) <= Submissions(events)
    ensures var e := events[|events| - 1]; e.Submit? && Queue.Routable(e.call) ==> e.call in Submissions(events)
  {
    var n := |events| - 1;
    forall call | call in Submissions(events[..n]) ensures call in Submissions(events) {
      var i :| 0 <= i < n && events[..n][i].Submit? && Queue.Routable(events[..n][i].call) && events[..n][i].call == call;
      assert events[i].Submit? && events[i].call == call;
    }
  }

  lemma {:induction false} AllCallsBring(a: World, events: seq<Event>)
    ensures Arrivals(AllCalls(a, events)) <= Submissions(events)
  {
    hide Calls, Run;
    if events == [] {
    } else {
      var n := |events| - 1;
      AllCallsBring(a, events[..n]);
      CallsBring(Run(a, events[..n]), events[n]);
      ArrivalsOf(AllCalls(a, events[..n]), Calls(Run(a, events[..n]), events[n]));
      SubmissionsGrow(events);
    }
  }

  ghost predicate JobsAsked(calls: set<Queue.Call>, frames: map<WorkerId, Frame>) {
    forall w :: w in frames ==> JobAsked(calls, frames[w].job)
  }

  lemma QueuedIsAsked(calls: set<Queue.Call>, q: Queue.Machine, op: OpId)
    requires AllAsked(calls, q) && op in q.db.ops && IsActive(q.db.ops[op].status)
    ensures var o := q.db.ops[op]; JobAsked(calls, Job(op, o.deployment, o.kind, o.payload))
  {
    assert Asked(calls, q.db.ops[op]);
    var call :| call in calls && Queue.AsksFor(call, q.db.ops[op]);
  }

  lemma WorkKeepsJobs(a: World, w: WorkerId, o: Oracle, b: World)
    requires Sound(a) && w in a.frames && b == Step(a, Work(w, o))
    ensures w in b.frames && b.frames[w].job == a.frames[w].job && b.frames == a.frames[w := b.frames[w]]
  {
    hide *;
    var f, v := a.frames[w], ViewOf(a, a.frames[w].job.id);
    var c := Advance(f, v, o);
    FrameOwns(a, w);
    WorkLocal(a, w, o, c);
    Progress.StepKeepsJob(f, v, FoundFor(a, w), c);
    WorkShapes(a, w, o, b, c);
    ShapeFrames(a, w, b, c);
  }

  lemma ShapeFrames(a: World, w: WorkerId, b: World, c: Config)
    requires WorkShape(a, w, b, c)
    ensures w in a.frames && b.frames == a.frames[w := c.f] && b.frames[w] == c.f
  {
  }

  lemma StepKeepsJobsAsked(a: World, e: Event, b: World, calls: set<Queue.Call>)
    requires Sound(a) && b == Step(a, e) && AllAsked(calls, a.q) && JobsAsked(calls, a.frames)
    ensures JobsAsked(calls, b.frames)
  {
    hide Sound, AllAsked, JobAsked;
    match e
    case Work(w, o) =>
      if w in a.frames {
        hide *;
        WorkKeepsJobs(a, w, o, b);
        SameJobsAsked(calls, a.frames, w, b.frames[w]);
      }
    case Claim(w, op) =>
      if w !in a.q.claims && Claimable(a.q.db, op) {
        QueuedIsAsked(calls, a.q, op);
      }
    case _ =>
  }

  lemma SameJobsAsked(calls: set<Queue.Call>, frames: map<WorkerId, Frame>, w: WorkerId, g: Frame)
    requires JobsAsked(calls, frames) && w in frames && g.job == frames[w].job
    ensures JobsAsked(calls, frames[w := g])
  {
  }

  lemma WiderJobs(calls: set<Queue.Call>, more: set<Queue.Call>, frames: map<WorkerId, Frame>)
    requires JobsAsked(calls, frames) && calls <= more
    ensures JobsAsked(more, frames)
  {
    forall w | w in frames ensures JobAsked(more, frames[w].job) {
      assert JobAsked(calls, frames[w].job);
    }
  }

  /** In every run of the agent, every procedure a worker runs was asked for: a client has submitted a call for that very
      deployment, kind and payload. So no worker ever deletes, purges, upgrades or restarts what nobody asked it to. */
  lemma {:induction false} ProceduresWereAsked(objects: map<Id, Objects>, cluster: Cluster, events: seq<Event>)
    ensures var a := Run(Begin(objects, cluster), events);
      && (forall w | w in a.frames :: JobAsked(Submissions(events), a.frames[w].job))
      && AllAsked(Submissions(events), a.q)
  {
    hide *;
    var begin := Begin(objects, cluster);
    QueueAsked(objects, cluster, events);
    if events == [] {
      NoJobs(objects, cluster);
    } else {
      var n := |events| - 1;
      var before := Run(begin, events[..n]);
      ProceduresWereAsked(objects, cluster, events[..n]);
      JobsTell(Submissions(events[..n]), before.frames);
      RunKeeps(objects, cluster, events[..n]);
      RunLast(begin, events);
      StepKeepsJobsAsked(before, events[n], Run(begin, events), Submissions(events[..n]));
      SubmissionsGrow(events);
      WiderJobs(Submissions(events[..n]), Submissions(events), Run(begin, events).frames);
    }
    JobsTell(Submissions(events), Run(begin, events).frames);
  }

  lemma JobsTell(calls: set<Queue.Call>, frames: map<WorkerId, Frame>)
    ensures JobsAsked(calls, frames) <==> forall w | w in frames :: JobAsked(calls, frames[w].job)
  {
    hide JobAsked;
  }

  lemma QueueAsked(objects: map<Id, Objects>, cluster: Cluster, events: seq<Event>)
    ensures AllAsked(Submissions(events), Run(Begin(objects, cluster), events).q)
  {
    hide *;
    var a := Begin(objects, cluster);
    AgentRefinesQueue(objects, cluster, events);
    OperationsWereAsked(AllCalls(a, events));
    AllCallsBring(a, events);
    WiderAsks(Arrivals(AllCalls(a, events)), Submissions(events), Run(a, events).q);
  }

  lemma NoJobs(objects: map<Id, Objects>, cluster: Cluster)
    ensures JobsAsked(Submissions([]), Run(Begin(objects, cluster), []).frames)
  {
  }

  // ---- The request of a create ----

  /** Until the create `op` is closed, its deployment keeps this request and the container it found is remembered. */
  ghost predicate Carries(a: World, op: OpId, id: Id, request: Request, found: Option<Spec>) {
    && op in a.q.db.ops && a.q.db.ops[op].deployment == id && a.q.db.ops[op].kind == Create
    && (IsActive(a.q.db.ops[op].status) ==>
          RowOf(a.q.db, id).Some? && RowOf(a.q.db, id).value.request == request && FoundBy(a, op) == found)
  }

  lemma OwnedByCreate(a: World, op: OpId)
    requires Sound(a) && op in a.q.db.ops && IsActive(a.q.db.ops[op].status) && a.q.db.ops[op].kind == Create
    ensures var id := a.q.db.ops[op].deployment;
      && id in a.q.db.active && a.q.db.active[id] == op
      && id in a.q.db.rows && a.q.db.rows[id].state != Failed && a.q.db.rows[id].state != Deleted
  {
    var id := a.q.db.ops[op].deployment;
    assert id in a.q.db.active && a.q.db.active[id] == op && id in a.q.db.rows;
    assert RowOk(OwnerOf(a.q.db, id), a.q.db.rows[id], Obj(a.objects, id));
    hide Sound;
  }

  lemma SubmitCarries(a: World, call: Queue.Call, b: World, op: OpId, id: Id, request: Request, found: Option<Spec>)
    requires Carries(a, op, id, request, found) && b == Submitted(a, b.q, call.id) && Submission.Effect(a.q.db, b.q.db, call)
    requires IsActive(a.q.db.ops[op].status) ==>
      id in a.q.db.active && a.q.db.active[id] == op
      && id in a.q.db.rows && a.q.db.rows[id].state != Failed && a.q.db.rows[id].state != Deleted
    ensures Carries(b, op, id, request, found)
  {
    assert b.q.db.ops[op] == a.q.db.ops[op];
    if IsActive(a.q.db.ops[op].status) {
      assert RowOf(b.q.db, id) == RowOf(a.q.db, id);
      assert FoundBy(b, op) == FoundBy(a, op);
    }
  }

  /** A create writes the state and the bootstrap secret, and no other part of its row. */
  lemma CreateKeepsRequest(f: Frame, v: View, pc: ProvisionPc, e: Oracle)
    requires f.pc == Provisioning(pc) && CreateFrame(f, v) && v.row.Some?
    ensures var row := Provision(f, v, pc, e).v.row; row.Some? && row.value.request == v.row.value.request
  {
    hide EnsureDatabase, EnsureNetworks, EnsureDirectory, CreateContainer, StartContainer, Built, OnPath;
    match pc
    case _ =>
  }

  lemma OwnStepKeepsRequest(f: Frame, v: View, e: Oracle)
    requires FrameOk(f, v) && f.job.kind == Create && v.row.Some?
    ensures var row := Advance(f, v, e).v.row; row.Some? && row.value.request == v.row.value.request
  {
    assert CreateFrame(f, v);
    hide CreateFrame, ProvisionOk, Provision;
    if f.pc.Provisioning? {
      CreateKeepsRequest(f, v, f.pc.provision, e);
    }
  }

  lemma WorkCarries(a: World, w: WorkerId, o: Oracle, b: World, op: OpId, id: Id, request: Request, found: Option<Spec>)
    requires Sound(a) && w in a.frames && b == Step(a, Work(w, o)) && Carries(a, op, id, request, found)
    ensures Carries(b, op, id, request, found)
  {
    var f, v := a.frames[w], ViewOf(a, a.frames[w].job.id);
    assert FrameOk(f, v) && f.job.id in a.q.db.rows ==> v.row == Some(a.q.db.rows[f.job.id]);
    assert op in a.q.db.ops && a.q.db.ops[op].kind == Create && a.q.db.ops[op].deployment == id;
    hide *;
    var c := Advance(f, v, o);
    FrameOwns(a, w);
    FrameIsLocal(a, w);
    LocalGives(f, v, FoundBy(a, f.job.op));
    WorkLocal(a, w, o, c);
    Progress.StepKeepsJob(f, v, FoundFor(a, w), c);
    WorkShapes(a, w, o, b, c);
    if f.job.id == id && IsActive(a.q.db.ops[op].status) {
      OwnedByCreate(a, op);
      ClaimHolds(a, w);
      OwnStepKeepsRequest(f, v, o);
    }
    ShapeCarries(a, w, b, c, op, id, request, found);
  }

  lemma ShapeCarries(a: World, w: WorkerId, b: World, c: Config, op: OpId, id: Id, request: Request, found: Option<Spec>)
    requires WorkShape(a, w, b, c) && Carries(a, op, id, request, found)
    requires a.frames[w].job.id == id && IsActive(a.q.db.ops[op].status) ==>
      id in a.q.db.rows && c.v.row.Some? && c.v.row.value.request == a.q.db.rows[id].request
    ensures Carries(b, op, id, request, found)
  {
  }

  lemma FinishCarries(a: World, w: WorkerId, b: World, op: OpId, id: Id, request: Request, found: Option<Spec>)
    requires IndexOk(a.q.db) && FinishShape(a, w, b) && Carries(a, op, id, request, found)
    ensures Carries(b, op, id, request, found)
  {
    if IsActive(b.q.db.ops[op].status) {
      assert id in b.q.db.active && b.q.db.active[id] == op;
      assert RowOf(b.q.db, id) == RowOf(a.q.db, id);
      assert id != a.frames[w].job.id && a.q.db.ops[op].status == b.q.db.ops[op].status;
    }
  }

  lemma QuietCarries(a: World, b: World, op: OpId, id: Id, request: Request, found: Option<Spec>)
    requires SameWorld(a, b) && Queue.Grows(a.q, b.q) && Carries(a, op, id, request, found)
    ensures Carries(b, op, id, request, found)
  {
  }

  lemma SoundIndex(a: World)
    requires Sound(a)
    ensures IndexOk(a.q.db) && Queue.Exclusive(a.q) && Submission.TokensFit(a.q.db) && a.q.clients == map[]
  {
    hide IndexOk, RowsOk, OwnersOk, FramesOk, JobsOk;
  }

  lemma QueueGrows(a: World, e: Event)
    requires Sound(a)
    ensures Queue.Grows(a.q, Step(a, e).q)
  {
    hide Queue.Grows, Step, Queue.Run, Calls;
    SoundIndex(a);
    StepIsCalls(a, e);
    Queue.RunKeepsExclusive(a.q, Calls(a, e));
  }

  lemma StepCarries(a: World, e: Event, b: World, op: OpId, id: Id, request: Request, found: Option<Spec>)
    requires Sound(a) && b == Step(a, e) && Carries(a, op, id, request, found)
    ensures Carries(b, op, id, request, found)
  {
    assert op in a.q.db.ops && a.q.db.ops[op].deployment == id && a.q.db.ops[op].kind == Create;
    hide *;
    SoundIndex(a);
    QueueGrows(a, e);
    match e
    case Submit(call, draws) =>
      SubmitShape(a, call, draws, b);
      if IsActive(a.q.db.ops[op].status) {
        OwnedByCreate(a, op);
      }
      SubmitCarries(a, call, b, op, id, request, found);
    case Work(w, o) =>
      IdleWork(a, w, o);
      if w in a.frames {
        WorkCarries(a, w, o, b, op, id, request, found);
      }
    case Finish(w, text) =>
      IdleFinish(a, w, text);
      if w in a.frames && a.frames[w].pc.Returned? {
        FinishShapes(a, w, text, b);
        FinishCarries(a, w, b, op, id, request, found);
      }
    case Claim(w, o) =>
      IdleClaim(a, w, o);
      if w !in a.q.claims && Claimable(a.q.db, o) {
        ClaimShape(a, w, o, b);
        QuietCarries(a, b, op, id, request, found);
      }
    case Abandon(w) =>
      AbandonShape(a, w, b);
      QuietCarries(a, b, op, id, request, found);
    case Crash =>
      CrashShape(a, b);
      QuietCarries(a, b, op, id, request, found);
  }

  lemma {:induction false} RunCarries(a: World, events: seq<Event>, op: OpId, id: Id, request: Request, found: Option<Spec>)
    requires Sound(a) && Carries(a, op, id, request, found)
    ensures Sound(Run(a, events)) && Carries(Run(a, events), op, id, request, found)
  {
    hide Step, Sound, Carries;
    if events != [] {
      var n := |events| - 1;
      RunCarries(a, events[..n], op, id, request, found);
      StepKeeps(Run(a, events[..n]), events[n], Run(a, events));
      StepCarries(Run(a, events[..n]), events[n], Run(a, events), op, id, request, found);
    }
  }

  /** A create that was accepted carries the request that was sent. */
  lemma AcceptedCarries(a: World, call: Queue.Call, draws: seq<Queue.Draw>, b: World)
    requires Sound(a) && call.CreateCall? && b == Step(a, Event.Submit(call, draws)) && Sound(b)
    requires call.id !in a.q.db.active && call.id in b.q.db.active
    ensures Carries(b, b.q.db.active[call.id], call.id, call.request, FoundSpec(Obj(a.objects, call.id)))
    ensures IsActive(b.q.db.ops[b.q.db.active[call.id]].status)
  {
    hide *;
    SoundIndex(a);
    SubmitShape(a, call, draws, b);
    NewlyCarries(a, call, b);
  }

  lemma NewlyCarries(a: World, call: Queue.Call, b: World)
    requires call.CreateCall? && b == Submitted(a, b.q, call.id) && Submission.Effect(a.q.db, b.q.db, call)
    requires call.id !in a.q.db.active && call.id in b.q.db.active
    ensures b.q.db.active[call.id] in b.q.db.ops && IsActive(b.q.db.ops[b.q.db.active[call.id]].status)
    ensures Carries(b, b.q.db.active[call.id], call.id, call.request, FoundSpec(Obj(a.objects, call.id)))
  {
  }

  lemma CreateReturns(f: Frame, v: View, found: Option<Spec>)
    requires LocalOk(f, v, found) && f.job.kind == Create && f.pc == Returned(Nil) && v.row.Some?
    ensures v.row.value.state == Active && v.row.value.bootstrap.None?
    ensures v.x.container == Single(Container(found.Or(Panel(v.row.value.request)), true))
  {
  }

  /** A create that was accepted makes what was sent. Whatever happens between, when a worker returns nil from the
      operation it queued, the deployment is active with the request of the call, and the one running container is the
      panel of that very request, unless there was a container already when the call was accepted: then it is that one. */
  lemma AcceptedCreateIsMade(a: World, call: Queue.Call, draws: seq<Queue.Draw>, events: seq<Event>, w: WorkerId)
    requires Reachable(a) && call.CreateCall? && call.id !in a.q.db.active
    requires var b := Step(a, Event.Submit(call, draws));
      && call.id in b.q.db.active
      && var r := Run(b, events);
         w in r.frames && r.frames[w].job.op == b.q.db.active[call.id] && r.frames[w].pc == Returned(Nil)
    ensures var r := Run(Step(a, Event.Submit(call, draws)), events);
      && r.frames[w].job.id == call.id && r.frames[w].job.kind == Create
      && RowOf(r.q.db, call.id).Some?
      && var row, before := RowOf(r.q.db, call.id).value, Obj(a.objects, call.id).container;
         && row.request == call.request && row.state == Active && row.bootstrap.None?
         && Obj(r.objects, call.id).container ==
              Single(Container(if before.Single? then before.value.spec else Panel(call.request), true))
  {
    hide *;
    var b := Step(a, Event.Submit(call, draws));
    var r, op, found := Run(b, events), b.q.db.active[call.id], FoundSpec(Obj(a.objects, call.id));
    ReachableIsSound(a);
    StepKeeps(a, Event.Submit(call, draws), b);
    AcceptedCarries(a, call, draws, b);
    RunCarries(b, events, op, call.id, call.request, found);
    ClaimHolds(r, w);
    FrameIsLocal(r, w);
    RunningIsActive();
    CarriesTells(r, op, call.id, call.request, found);
    ViewIs(r, call.id);
    CreateReturns(r.frames[w], ViewOf(r, call.id), FoundBy(r, op));
    FoundIs(Obj(a.objects, call.id), call.request);
  }

  lemma CarriesTells(a: World, op: OpId, id: Id, request: Request, found: Option<Spec>)
    requires Carries(a, op, id, request, found)
    ensures op in a.q.db.ops && a.q.db.ops[op].deployment == id && a.q.db.ops[op].kind == Create
    ensures IsActive(a.q.db.ops[op].status) ==>
      RowOf(a.q.db, id).Some? && RowOf(a.q.db, id).value.request == request && FoundBy(a, op) == found
  {
  }

  lemma FoundIs(x: Objects, request: Request)
    ensures FoundSpec(x).Or(Panel(request)) == if x.container.Single? then x.container.value.spec else Panel(request)
  {
  }
}

/** Interrupted creates and purges converge: however many crashes came before, one uninterrupted run whose outside
    calls succeed ends in the same place. */
module Convergence {
  import opened Common
  import opened Lifecycle
  import opened Store
  import opened Host
  import opened Programs
  import opened Invariant
  import opened Preservation
  import opened Agent
  import opened Soundness
  import opened Progress
  import Queue
  import Submission

  // ---- What a procedure knows of its deployment while others work ----

  predicate Loading(pc: Pc) {
    pc == Provisioning(Load) || pc == Removing(LoadRemove)
  }

  /** The request a create or delete works from: the one it has read, or the one it is about to read from a row
      no API call can rewrite. */
  predicate WorksFrom(f: Frame, row: Option<Row>, q: Request) {
    if Loading(f.pc) then
      row.Some? && row.value.request == q && row.value.state != Failed && row.value.state != Deleted
    else f.pc != Returned(Err) ==> f.d.request == q
  }

  lemma BuildWorksFrom(f: Frame, v: View, pc: ProvisionPc, e: Oracle, c: Config, q: Request)
    requires f.pc == Provisioning(pc) && WorksFrom(f, v.row, q) && c == Provision(f, v, pc, e)
    requires Place(pc) <= 7
    ensures WorksFrom(c.f, c.v.row, q) && SameBeside(v.c, c.v.c, f.job.id, q.database, q.username)
  {
    match pc
    case _ =>
  }

  lemma LaunchWorksFrom(f: Frame, v: View, pc: ProvisionPc, e: Oracle, c: Config, q: Request)
    requires f.pc == Provisioning(pc) && WorksFrom(f, v.row, q) && c == Provision(f, v, pc, e)
    requires Place(pc) > 7
    ensures WorksFrom(c.f, c.v.row, q) && SameBeside(v.c, c.v.c, f.job.id, q.database, q.username)
  {
    match pc
    case _ =>
  }

  lemma ProvisionWorksFrom(f: Frame, v: View, pc: ProvisionPc, e: Oracle, c: Config, q: Request)
    requires f.pc == Provisioning(pc) && WorksFrom(f, v.row, q) && c == Provision(f, v, pc, e)
    ensures WorksFrom(c.f, c.v.row, q) && SameBeside(v.c, c.v.c, f.job.id, q.database, q.username)
  {
    hide *;
    if Place(pc) <= 7 {
      BuildWorksFrom(f, v, pc, e, c, q);
    } else {
      LaunchWorksFrom(f, v, pc, e, c, q);
    }
  }

  lemma RemoveWorksFrom(f: Frame, v: View, pc: RemovePc, e: Oracle, c: Config, q: Request)
    requires f.pc == Removing(pc) && WorksFrom(f, v.row, q) && c == RemoveStep(f, v, pc, e)
    ensures WorksFrom(c.f, c.v.row, q) && SameBeside(v.c, c.v.c, f.job.id, q.database, q.username)
  {
    match pc
    case _ =>
  }

  lemma StepWorksFrom(f: Frame, v: View, e: Oracle, c: Config, q: Request)
    requires f.pc.Provisioning? || f.pc.Removing? || f.pc.Returned?
    requires WorksFrom(f, v.row, q) && c == Advance(f, v, e)
    ensures WorksFrom(c.f, c.v.row, q) && SameBeside(v.c, c.v.c, f.job.id, q.database, q.username)
  {
    match f.pc
    case Provisioning(pc) => ProvisionWorksFrom(f, v, pc, e, c, q);
    case Removing(pc) => RemoveWorksFrom(f, v, pc, e, c, q);
    case Returned(_) =>
  }

  /** Databases of `id` other than `name`, and roles other than `user`, are the same in both clusters. */
  ghost predicate SameBeside(c: Cluster, d: Cluster, id: Id, name: string, user: string) {
    && (forall n :: n != name ==> (OwnsDatabase(c, id, n) <==> OwnsDatabase(d, id, n)))
    && (forall u :: u != user ==> (OwnsRole(c, id, u) <==> OwnsRole(d, id, u)))
  }

  // ---- What others leave alone ----

  /** Of worker `w`'s deployment, `b` keeps all that its procedure relies on. */
  ghost predicate Undisturbed(a: World, b: World, w: WorkerId) {
    && w in a.frames && w in b.frames && b.frames[w] == a.frames[w]
    && var id := a.frames[w].job.id;
       && (var row := RowOf(a.q.db, id);
           row.Some? && row.value.state != Failed && row.value.state != Deleted ==> RowOf(b.q.db, id) == row)
       && FoundBy(b, a.frames[w].job.op) == FoundBy(a, a.frames[w].job.op)
       && Obj(b.objects, id).container == Obj(a.objects, id).container
       && SameFor(a.cluster, b.cluster, id)
  }

  lemma SubmitShape(a: World, call: Queue.Call, draws: seq<Queue.Draw>, b: World)
    requires Submission.TokensFit(a.q.db) && a.q.clients == map[] && b == Step(a, Event.Submit(call, draws))
    ensures b == Submitted(a, b.q, call.id) && Submission.Effect(a.q.db, b.q.db, call)
  {
    hide Submission.Effect, Submission.TokensFit;
    Submission.SubmitEffect(a.q, call, draws, b.q);
  }

  lemma SubmittedLeaves(a: World, w: WorkerId, call: Queue.Call, b: World)
    requires w in a.frames && b == Submitted(a, b.q, call.id) && Submission.Effect(a.q.db, b.q.db, call)
    requires var job := a.frames[w].job; job.id in a.q.db.active && a.q.db.active[job.id] == job.op && job.op in a.q.db.ops
    ensures Undisturbed(a, b, w)
  {
  }

  lemma SubmitLeaves(a: World, w: WorkerId, call: Queue.Call, draws: seq<Queue.Draw>, b: World)
    requires Sound(a) && w in a.frames && b == Step(a, Event.Submit(call, draws))
    ensures Undisturbed(a, b, w)
  {
    assert Submission.TokensFit(a.q.db) && a.q.clients == map[];
    assert a.frames[w].job.op in a.q.db.ops;
    FrameOwns(a, w);
    hide *;
    SubmitShape(a, call, draws, b);
    SubmittedLeaves(a, w, call, b);
  }

  /** Only claims, frames of other workers and statuses have changed. */
  lemma QuietLeaves(a: World, w: WorkerId, b: World)
    requires w in a.frames && w in b.frames && b.frames[w] == a.frames[w]
    requires b.q.db.rows == a.q.db.rows && b.objects == a.objects && b.cluster == a.cluster && b.found == a.found
    ensures Undisturbed(a, b, w)
  {
  }

  lemma ClaimLeaves(a: World, w: WorkerId, v: WorkerId, op: OpId, b: World)
    requires Sound(a) && w in a.frames && b == Step(a, Event.Claim(v, op))
    ensures Undisturbed(a, b, w)
  {
    hide *;
    IdleClaim(a, v, op);
    SoundTells(a);
    if v !in a.q.claims && Claimable(a.q.db, op) {
      ClaimShape(a, v, op, b);
      SameWorldTells(a, b);
    }
    QuietLeaves(a, w, b);
  }

  lemma SameWorldTells(a: World, b: World)
    requires SameWorld(a, b)
    ensures b.q.db.rows == a.q.db.rows && b.objects == a.objects && b.cluster == a.cluster && b.found == a.found
  {
  }

  lemma AbandonLeaves(a: World, w: WorkerId, v: WorkerId, b: World)
    requires Sound(a) && w in a.frames && v != w && b == Step(a, Event.Abandon(v))
    ensures Undisturbed(a, b, w)
  {
    hide *;
    SoundTells(a);
    AbandonShape(a, v, b);
    SameWorldTells(a, b);
    QuietLeaves(a, w, b);
  }

  lemma StepSpares(f: Frame, v: View, found: Option<Spec>, c: Config, other: Id)
    requires StepOk(f, v, found, c.f, c.v) && other != f.job.id
    ensures c.v.row.Some? && SameFor(v.c, c.v.c, other)
  {
    hide SameFor;
  }

  lemma WorkLeaves(a: World, w: WorkerId, v: WorkerId, o: Oracle, b: World)
    requires Sound(a) && w in a.frames && v != w && b == Step(a, Work(v, o))
    ensures Undisturbed(a, b, w)
  {
    hide *;
    IdleWork(a, v, o);
    if v in a.frames {
      var view := ViewOf(a, a.frames[v].job.id);
      var c := Advance(a.frames[v], view, o);
      ViewIs(a, a.frames[v].job.id);
      FrameOwns(a, v);
      WorkLocal(a, v, o, c);
      StepSpares(a.frames[v], view, FoundFor(a, v), c, a.frames[w].job.id);
      WorkShapes(a, v, o, b, c);
      ShapeLeaves(a, w, v, b, c);
    } else {
      QuietLeaves(a, w, b);
    }
  }

  lemma SoundTells(a: World)
    requires Sound(a)
    ensures a.q.clients == map[] && a.frames.Keys == a.q.claims.Keys
  {
    hide Queue.Exclusive, RowsOk, OwnersOk, FramesOk, Submission.TokensFit;
  }

  lemma IdleClaim(a: World, v: WorkerId, op: OpId)
    ensures v in a.q.claims || !Claimable(a.q.db, op) ==> Step(a, Event.Claim(v, op)) == a
  {
  }

  lemma IdleWork(a: World, v: WorkerId, o: Oracle)
    ensures v !in a.frames ==> Step(a, Work(v, o)) == a
  {
  }

  lemma IdleFinish(a: World, v: WorkerId, text: string)
    ensures v !in a.frames || !a.frames[v].pc.Returned? ==> Step(a, Event.Finish(v, text)) == a
  {
  }

  lemma ShapeLeaves(a: World, w: WorkerId, v: WorkerId, b: World, c: Config)
    requires WorkShape(a, v, b, c) && w in a.frames && v != w && a.frames[v].job.id != a.frames[w].job.id
    requires SameFor(a.cluster, c.v.c, a.frames[w].job.id)
    ensures Undisturbed(a, b, w)
  {
    hide SameFor;
  }

  lemma FinishLeaves(a: World, w: WorkerId, v: WorkerId, text: string, b: World)
    requires Sound(a) && w in a.frames && v != w && b == Step(a, Event.Finish(v, text))
    ensures Undisturbed(a, b, w)
  {
    hide *;
    IdleFinish(a, v, text);
    if v in a.frames && a.frames[v].pc.Returned? {
      FrameOwns(a, v);
      FinishShapes(a, v, text, b);
      ClosedLeaves(a, w, v, b);
    } else {
      QuietLeaves(a, w, b);
    }
  }

  lemma ClosedLeaves(a: World, w: WorkerId, v: WorkerId, b: World)
    requires FinishShape(a, v, b) && w in a.frames && v != w && a.frames[v].job.id != a.frames[w].job.id
    ensures Undisturbed(a, b, w)
  {
    hide RowOk, IndexOk;
  }

  lemma OthersLeave(a: World, w: WorkerId, e: Event, b: World)
    requires Sound(a) && w in a.frames && b == Step(a, e) && Spares(e, w) && !IsWork(e, w)
    ensures Undisturbed(a, b, w)
  {
    assert e != Crash && e != Event.Abandon(w) && !(e.Finish? && e.w == w) && !(e.Work? && e.w == w);
    hide *;
    match e
    case Submit(call, draws) => SubmitLeaves(a, w, call, draws, b);
    case Claim(v, op) => ClaimLeaves(a, w, v, op, b);
    case Work(v, o) => WorkLeaves(a, w, v, o, b);
    case Finish(v, text) => FinishLeaves(a, w, v, text, b);
    case Abandon(v) => AbandonLeaves(a, w, v, b);
  }

  // ---- A smooth run ----

  /** Worker `w` runs this create or delete from request `q`, on course, with at most `n` steps to go. */
  ghost predicate Follows(a: World, w: WorkerId, job: Job, q: Request, found: Option<Spec>, n: int) {
    && Sound(a)
    && Going(a, w, job, n)
    && (job.kind == Create || IsDelete(job.kind))
    && WorksFrom(a.frames[w], RowOf(a.q.db, job.id), q)
    && FoundBy(a, job.op) == found
  }

  lemma OwnShape(f: Frame, v: View)
    requires FrameOk(f, v) && (f.job.kind == Create || IsDelete(f.job.kind))
    ensures f.pc.Provisioning? || f.pc.Removing? || f.pc.Returned?
  {
  }

  lemma OwnStepFollows(a: World, w: WorkerId, o: Oracle, b: World, job: Job, q: Request, found: Option<Spec>, n: int)
    requires Follows(a, w, job, q, found, n) && b == Step(a, Work(w, o)) && SmoothStep(a, w, Work(w, o))
    ensures Follows(b, w, job, q, found, n - 1) && SameBeside(a.cluster, b.cluster, job.id, q.database, q.username)
  {
    var f, v := a.frames[w], ViewOf(a, job.id);
    assert f.job == job && FrameOk(f, v) && v.c == a.cluster && v.row == RowOf(a.q.db, job.id);
    assert WorksFrom(f, v.row, q) && (job.kind == Create || IsDelete(job.kind)) && FoundBy(a, job.op) == found;
    assert Sound(a) && Going(a, w, job, n);
    hide *;
    var c := Advance(f, v, o);
    FrameOwns(a, w);
    WorkLocal(a, w, o, c);
    StepKeepsJob(f, v, FoundFor(a, w), c);
    WorkShapes(a, w, o, b, c);
    OwnShape(f, v);
    StepWorksFrom(f, v, o, c, q);
    OwnWork(a, w, o, b, n);
    WorkKeeps(a, w, o, b);
    OwnFollows(a, w, b, c, job, q, found, n);
  }

  lemma OwnFollows(a: World, w: WorkerId, b: World, c: Config, job: Job, q: Request, found: Option<Spec>, n: int)
    requires WorkShape(a, w, b, c) && Sound(b) && Going(b, w, job, n - 1) && c.f.job == job == a.frames[w].job
    requires (job.kind == Create || IsDelete(job.kind)) && FoundBy(a, job.op) == found
    requires WorksFrom(c.f, c.v.row, q) && SameBeside(a.cluster, c.v.c, job.id, q.database, q.username)
    ensures Follows(b, w, job, q, found, n - 1) && SameBeside(a.cluster, b.cluster, job.id, q.database, q.username)
  {
    hide Sound, WorksFrom, SameBeside, Going;
    assert RowOf(b.q.db, job.id) == c.v.row;
  }

  lemma OtherFollows(a: World, w: WorkerId, b: World, job: Job, q: Request, found: Option<Spec>, n: int)
    requires Follows(a, w, job, q, found, n) && Undisturbed(a, b, w) && Sound(b)
    ensures Follows(b, w, job, q, found, n) && SameBeside(a.cluster, b.cluster, job.id, q.database, q.username)
  {
    hide Sound, OnCourse;
  }

  lemma SmoothFollows(a: World, w: WorkerId, e: Event, b: World, job: Job, q: Request, found: Option<Spec>, n: int)
    requires Follows(a, w, job, q, found, n) && b == Step(a, e) && SmoothStep(a, w, e)
    ensures Follows(b, w, job, q, found, if IsWork(e, w) then n - 1 else n)
    ensures SameBeside(a.cluster, b.cluster, job.id, q.database, q.username)
  {
    assert Sound(a) && w in a.frames && a.frames[w].job == job;
    assert (IsWork(e, w) ==> e == Work(w, e.e)) && Spares(e, w);
    hide *;
    if IsWork(e, w) {
      OwnStepFollows(a, w, e.e, b, job, q, found, n);
    } else {
      StepKeeps(a, e, b);
      OthersLeave(a, w, e, b);
      OtherFollows(a, w, b, job, q, found, n);
    }
  }

  lemma {:induction false} SmoothRunFollows(a: World, w: WorkerId, events: seq<Event>, job: Job, q: Request, found: Option<Spec>, n: int)
    requires Follows(a, w, job, q, found, n) && Smooth(a, w, events)
    ensures Follows(Run(a, events), w, job, q, found, n - Works(events, w))
    ensures SameBeside(a.cluster, Run(a, events).cluster, job.id, q.database, q.username)
  {
    hide *;
    if events == [] {
      NoEvents(a, w, job.id, q.database, q.username);
    } else {
      var m := |events| - 1;
      var before := events[..m];
      SmoothPrefix(a, w, events);
      RunLast(a, events);
      WorksLast(events, w);
      SmoothRunFollows(a, w, before, job, q, found, n);
      SmoothFollows(Run(a, before), w, events[m], Run(a, events), job, q, found, n - Works(before, w));
      BesideOn(a.cluster, Run(a, before).cluster, Run(a, events).cluster, job.id, q.database, q.username);
    }
  }

  lemma NoEvents(a: World, w: WorkerId, id: Id, name: string, user: string)
    ensures Run(a, []) == a && Works([], w) == 0 && SameBeside(a.cluster, a.cluster, id, name, user)
  {
    hide Step, OwnsDatabase, OwnsRole;
  }

  lemma SmoothPrefix(a: World, w: WorkerId, events: seq<Event>)
    requires Smooth(a, w, events) && events != []
    ensures Smooth(a, w, events[..|events| - 1])
    ensures SmoothStep(Run(a, events[..|events| - 1]), w, events[|events| - 1])
  {
    hide SmoothStep, Run;
    var before := events[..|events| - 1];
    forall i | 0 <= i < |before| ensures SmoothStep(Run(a, before[..i]), w, before[i]) {
      assert before[..i] == events[..i] && before[i] == events[i];
    }
  }

  lemma RunLast(a: World, events: seq<Event>)
    requires events != []
    ensures Run(a, events) == Step(Run(a, events[..|events| - 1]), events[|events| - 1])
  {
    hide Step;
  }

  lemma WorksLast(events: seq<Event>, w: WorkerId)
    requires events != []
    ensures Works(events, w) == Works(events[..|events| - 1], w) + (if IsWork(events[|events| - 1], w) then 1 else 0)
  {
  }

  lemma BesideOn(c: Cluster, d: Cluster, e: Cluster, id: Id, name: string, user: string)
    requires SameBeside(c, d, id, name, user) && SameBeside(d, e, id, name, user)
    ensures SameBeside(c, e, id, name, user)
  {
    hide OwnsDatabase, OwnsRole;
  }

  // ---- Create ----

  /** What a create is for: the panel running on its own networks, directory, database and role. */
  predicate Provisioned(x: Objects, c: Cluster, id: Id, q: Request, spec: Spec) {
    && x.container == Single(Container(spec, true))
    && x.frontend && x.backend && x.panel.live && x.panel.mark.Marked? && x.installed
    && OwnsDatabase(c, id, q.database) && OwnsRole(c, id, q.username)
  }

  lemma CreateEntry(f: Frame, v: View, found: Option<Spec>, q: Request)
    requires LocalOk(f, v, found) && f.job.kind == Create && f.pc.Provisioning?
    requires v.row.Some? && v.row.value.request == q
    ensures WorksFrom(f, v.row, q) && OnCourse(f.pc)
  {
  }

  lemma CreateEnd(f: Frame, v: View, found: Option<Spec>, q: Request)
    requires LocalOk(f, v, found) && f.job.kind == Create && WorksFrom(f, v.row, q) && OnCourse(f.pc) && Left(f.pc) == 0
    ensures f.pc == Returned(Nil) && v.row == Some(f.d)
    ensures f.d.state == Active && f.d.request == q && f.d.bootstrap.None? && f.d.reference == REFERENCE
    ensures Provisioned(v.x, v.c, f.job.id, q, found.Or(Panel(q)))
  {
  }

  lemma SpecIff(x: Objects, c: Cluster, id: Id, q: Request, found: Option<Spec>)
    requires Provisioned(x, c, id, q, found.Or(Panel(q)))
    ensures Provisioned(x, c, id, q, Panel(q)) <==> found.None? || found == Some(Panel(q))
  {
  }

  lemma GoingOut(a: World, w: WorkerId, job: Job, n: int)
    requires Going(a, w, job, n)
    ensures w in a.frames && a.frames[w].job == job && OnCourse(a.frames[w].pc) && (n <= 0 ==> Left(a.frames[w].pc) == 0)
  {
  }

  lemma FollowsOut(a: World, w: WorkerId, job: Job, q: Request, found: Option<Spec>, n: int)
    requires Follows(a, w, job, q, found, n)
    ensures Sound(a) && Going(a, w, job, n) && w in a.frames && a.frames[w].job == job
    ensures WorksFrom(a.frames[w], RowOf(a.q.db, job.id), q) && FoundBy(a, job.op) == found
  {
    hide Sound, OnCourse;
  }

  lemma StartFollows(a: World, w: WorkerId, q: Request)
    requires Sound(a) && w in a.frames && (a.frames[w].job.kind == Create || IsDelete(a.frames[w].job.kind))
    requires OnCourse(a.frames[w].pc) && WorksFrom(a.frames[w], RowOf(a.q.db, a.frames[w].job.id), q)
    ensures Follows(a, w, a.frames[w].job, q, FoundBy(a, a.frames[w].job.op), Left(a.frames[w].pc))
  {
    hide Sound, OnCourse, WorksFrom;
  }

  lemma ViewIs(a: World, id: Id)
    ensures ViewOf(a, id) == View(RowOf(a.q.db, id), Obj(a.objects, id), a.cluster)
    ensures id in a.q.db.rows <==> RowOf(a.q.db, id).Some?
    ensures id in a.q.db.rows ==> RowOf(a.q.db, id).value == a.q.db.rows[id]
  {
  }

  /** Whatever crashes, reruns and other work led to the world `a`, once a worker is at any point of a create and
      from there its calls succeed, it returns nil within eighteen of its own steps, and the deployment is active
      with its database, role, networks, directory and container. The container is the one the create found, if
      there was one, and its spec is then not looked at: it runs the stored request exactly when there was none
      or it had been built from that very request. */
  lemma CreateConverges(a: World, w: WorkerId, events: seq<Event>, id: Id, q: Request)
    requires Reachable(a) && w in a.frames && a.frames[w].job.kind == Create && a.frames[w].pc.Provisioning?
    requires id == a.frames[w].job.id && id in a.q.db.rows && q == a.q.db.rows[id].request
    requires Smooth(a, w, events) && Works(events, w) >= Left(a.frames[w].pc)
    ensures var b, found := Run(a, events), FoundBy(a, a.frames[w].job.op);
      && w in b.frames && b.frames[w].pc == Returned(Nil)
      && id in b.q.db.rows
      && b.q.db.rows[id].state == Active && b.q.db.rows[id].request == q && b.q.db.rows[id].bootstrap.None?
      && b.q.db.rows[id].reference == REFERENCE
      && Provisioned(Obj(b.objects, id), b.cluster, id, q, found.Or(Panel(q)))
      && (Provisioned(Obj(b.objects, id), b.cluster, id, q, Panel(q)) <==> found.None? || found == Some(Panel(q)))
  {
    hide *;
    var job, found, b := a.frames[w].job, FoundBy(a, a.frames[w].job.op), Run(a, events);
    ReachableIsSound(a);
    FrameIsLocal(a, w);
    ViewIs(a, id);
    CreateEntry(a.frames[w], ViewOf(a, id), found, q);
    StartFollows(a, w, q);
    SmoothRunFollows(a, w, events, job, q, found, Left(a.frames[w].pc));
    FollowsOut(b, w, job, q, found, Left(a.frames[w].pc) - Works(events, w));
    GoingOut(b, w, job, Left(a.frames[w].pc) - Works(events, w));
    FrameIsLocal(b, w);
    ViewIs(b, id);
    CreateEnd(b.frames[w], ViewOf(b, id), found, q);
    SpecIff(Obj(b.objects, id), b.cluster, id, q, found);
  }

  /** The history of crashes leaves no trace: two creates of equal requests that found equal containers end with
      equal rows, up to the sealed secrets, and equal networks, directory and container. */
  lemma HistoryLeavesNoTrace(a: World, w: WorkerId, s: seq<Event>, b: World, v: WorkerId, t: seq<Event>, id: Id, q: Request)
    requires Reachable(a) && w in a.frames && a.frames[w].job.kind == Create && a.frames[w].pc.Provisioning?
    requires Reachable(b) && v in b.frames && b.frames[v].job.kind == Create && b.frames[v].pc.Provisioning?
    requires id == a.frames[w].job.id == b.frames[v].job.id
    requires id in a.q.db.rows && q == a.q.db.rows[id].request && id in b.q.db.rows && q == b.q.db.rows[id].request
    requires FoundBy(a, a.frames[w].job.op) == FoundBy(b, b.frames[v].job.op)
    requires Smooth(a, w, s) && Works(s, w) >= Left(a.frames[w].pc)
    requires Smooth(b, v, t) && Works(t, v) >= Left(b.frames[v].pc)
    ensures var c, d := Run(a, s), Run(b, t);
      && id in c.q.db.rows && id in d.q.db.rows
      && c.q.db.rows[id].(secret := None, failedStep := "") == d.q.db.rows[id].(secret := None, failedStep := "")
      && var x, y := Obj(c.objects, id), Obj(d.objects, id);
         x.container == y.container && x.frontend == y.frontend && x.backend == y.backend && x.panel.live == y.panel.live
  {
    hide Reachable, Smooth, Works, Run, Left;
    CreateConverges(a, w, s, id, q);
    CreateConverges(b, v, t, id, q);
  }

  // ---- Delete ----

  /** What a delete leaves: no container and no networks; after a purge no database, role or directory either. */
  predicate Removed(x: Objects, c: Cluster, id: Id, q: Request, purge: bool) {
    && x.container.Absent? && !x.frontend && !x.backend
    && (purge ==>
          && !OwnsDatabase(c, id, q.database) && !OwnsRole(c, id, q.username)
          && x.panel == NoDirectory && x.backups == NoDirectory)
  }

  lemma DeleteEnd(f: Frame, v: View, found: Option<Spec>, q: Request)
    requires LocalOk(f, v, found) && IsDelete(f.job.kind) && WorksFrom(f, v.row, q) && OnCourse(f.pc) && Left(f.pc) == 0
    ensures f.pc == Returned(Nil) && v.row.Some? && (v.row.value.state == Deleted || v.row.value.state == Pending)
    ensures Removed(v.x, v.c, f.job.id, q, f.job.kind == DeletePurge)
  {
  }

  lemma DeleteEntry(f: Frame, v: View, found: Option<Spec>)
    requires LocalOk(f, v, found) && IsDelete(f.job.kind) && f.pc.Removing?
    ensures OnCourse(f.pc) && Left(f.pc) <= 9
  {
  }

  /** A delete that was interrupted anywhere and is run again returns nil within nine of its own steps once its
      calls succeed, from every state it can find, and nothing it is for remains. Databases and roles the
      deployment owns under other names are not touched, so that after a purge nothing of it remains in PostgreSQL
      exactly when it owned nothing but the names in the request the purge works from. */
  lemma DeleteConverges(a: World, w: WorkerId, events: seq<Event>, id: Id, q: Request)
    requires Reachable(a) && w in a.frames && IsDelete(a.frames[w].job.kind) && a.frames[w].pc.Removing?
    requires id == a.frames[w].job.id && WorksFrom(a.frames[w], RowOf(a.q.db, id), q)
    requires Smooth(a, w, events) && Works(events, w) >= 9
    ensures var b, purge := Run(a, events), a.frames[w].job.kind == DeletePurge;
      && w in b.frames && b.frames[w].pc == Returned(Nil)
      && id in b.q.db.rows && (b.q.db.rows[id].state == Deleted || b.q.db.rows[id].state == Pending)
      && Removed(Obj(b.objects, id), b.cluster, id, q, purge)
      && SameBeside(a.cluster, b.cluster, id, q.database, q.username)
      && (purge ==>
            && ((forall n :: !OwnsDatabase(b.cluster, id, n)) <==> (forall n :: OwnsDatabase(a.cluster, id, n) ==> n == q.database))
            && ((forall u :: !OwnsRole(b.cluster, id, u)) <==> (forall u :: OwnsRole(a.cluster, id, u) ==> u == q.username)))
  {
    hide *;
    var job, found, b := a.frames[w].job, FoundBy(a, a.frames[w].job.op), Run(a, events);
    ReachableIsSound(a);
    FrameIsLocal(a, w);
    DeleteEntry(a.frames[w], ViewOf(a, id), found);
    StartFollows(a, w, q);
    var n := Left(a.frames[w].pc);
    SmoothRunFollows(a, w, events, job, q, found, n);
    FollowsOut(b, w, job, q, found, n - Works(events, w));
    GoingOut(b, w, job, n - Works(events, w));
    FrameIsLocal(b, w);
    ViewIs(b, id);
    DeleteEnd(b.frames[w], ViewOf(b, id), found, q);
    if job.kind == DeletePurge {
      NothingBeside(a.cluster, Obj(b.objects, id), b.cluster, id, q);
    }
  }

  lemma NothingBeside(c: Cluster, x: Objects, d: Cluster, id: Id, q: Request)
    requires SameBeside(c, d, id, q.database, q.username) && Removed(x, d, id, q, true)
    ensures (forall n :: !OwnsDatabase(d, id, n)) <==> (forall n :: OwnsDatabase(c, id, n) ==> n == q.database)
    ensures (forall u :: !OwnsRole(d, id, u)) <==> (forall u :: OwnsRole(c, id, u) ==> u == q.username)
  {
    hide OwnsDatabase, OwnsRole;
  }

  // ---- Left alone ----

  const GOOD := Oracle(Ok, map[], None)

  function Working(w: WorkerId, n: nat): seq<Event> {
    seq(n, _ => Work(w, GOOD))
  }

  /** No call that is still ahead of the procedure will be refused. A create's names are free or its own and its
      directory's marker is not spoilt; a purge's database and role, where they exist, are marked for it, the role owns
      no other database, and of each directory there is nothing or one marked copy; and at most one container carries
      the deployment's labels. */
  predicate Unopposed(f: Frame, v: View, q: Request) {
    match f.pc
    case Provisioning(pc) =>
      && (Place(pc) <= 5 ==> !v.x.panel.mark.Spoilt?)
      && (Place(pc) <= 2 ==> !RoleRefused(v.c, f.job.id, q.username) && !DatabaseRefused(v.c, f.job.id, q.database, q.username))
      && (Place(pc) <= 8 ==> !v.x.container.Several?)
    case Removing(pc) =>
      && (RemovePlace(pc) <= 3 ==> !v.x.container.Several?)
      && (f.job.kind == DeletePurge ==>
            && (RemovePlace(pc) <= 5 ==> !DropRefused(v.c, f.job.id, q.database, q.username) && !Encumbered(v.c, q.database, q.username))
            && (RemovePlace(pc) <= 6 ==> Purgeable(v.x.panel))
            && (RemovePlace(pc) <= 7 ==> Purgeable(v.x.backups)))
    case Returned(result) => result == Nil
    case _ => true
  }

  lemma BuildUnopposed(f: Frame, v: View, pc: ProvisionPc, found: Option<Spec>, c: Config, q: Request)
    requires f.job.kind == Create && f.pc == Provisioning(pc) && DeploymentOk(Create, v, found) && ProvisionOk(f, v, pc)
    requires WorksFrom(f, v.row, q) && c == Provision(f, v, pc, GOOD) && Place(pc) <= 8
    ensures Unopposed(c.f, c.v, q) <==> Unopposed(f, v, q)
  {
    match pc
    case _ =>
  }

  lemma LaunchUnopposed(f: Frame, v: View, pc: ProvisionPc, found: Option<Spec>, c: Config, q: Request)
    requires f.job.kind == Create && f.pc == Provisioning(pc) && DeploymentOk(Create, v, found) && ProvisionOk(f, v, pc)
    requires c == Provision(f, v, pc, GOOD) && Place(pc) > 8
    ensures Unopposed(c.f, c.v, q) <==> Unopposed(f, v, q)
  {
    hide RoleRefused, DatabaseRefused, Rewrite, OnPath, ContainerOk;
    match pc
    case _ =>
  }

  lemma ProvisionUnopposed(f: Frame, v: View, pc: ProvisionPc, found: Option<Spec>, c: Config, q: Request)
    requires f.job.kind == Create && f.pc == Provisioning(pc) && DeploymentOk(Create, v, found) && ProvisionOk(f, v, pc)
    requires WorksFrom(f, v.row, q) && c == Provision(f, v, pc, GOOD)
    ensures Unopposed(c.f, c.v, q) <==> Unopposed(f, v, q)
  {
    hide *;
    if Place(pc) <= 8 {
      BuildUnopposed(f, v, pc, found, c, q);
    } else {
      LaunchUnopposed(f, v, pc, found, c, q);
    }
  }

  lemma RemoveUnopposed(f: Frame, v: View, pc: RemovePc, c: Config, q: Request)
    requires IsDelete(f.job.kind) && f.pc == Removing(pc) && DeploymentOk(f.job.kind, v, None) && RemoveOk(f, v, pc)
    requires WorksFrom(f, v.row, q) && c == RemoveStep(f, v, pc, GOOD)
    ensures Unopposed(c.f, c.v, q) <==> Unopposed(f, v, q)
  {
    match pc
    case _ =>
  }

  lemma StepUnopposed(f: Frame, v: View, found: Option<Spec>, c: Config, q: Request)
    requires LocalOk(f, v, found) && (f.job.kind == Create || IsDelete(f.job.kind))
    requires WorksFrom(f, v.row, q) && c == Advance(f, v, GOOD)
    ensures Unopposed(c.f, c.v, q) <==> Unopposed(f, v, q)
  {
    OwnShape(f, v);
    hide Unopposed, WorksFrom, RowOk, ContainerOk, Provision, RemoveStep;
    match f.pc
    case Provisioning(pc) => ProvisionUnopposed(f, v, pc, found, c, q);
    case Removing(pc) => RemoveUnopposed(f, v, pc, c, q);
    case Returned(_) =>
  }

  /** Worker `w` runs this create or delete from request `q`. */
  ghost predicate Pursues(a: World, w: WorkerId, job: Job, q: Request) {
    && Sound(a)
    && w in a.frames && a.frames[w].job == job
    && (job.kind == Create || IsDelete(job.kind))
    && WorksFrom(a.frames[w], RowOf(a.q.db, job.id), q)
  }

  /** `b` is `a` after `k` successful steps of the worker. */
  ghost predicate Proceeds(a: World, b: World, w: WorkerId, job: Job, q: Request, k: nat) {
    && w in a.frames && w in b.frames && FoundBy(b, job.op) == FoundBy(a, job.op)
    && SameBeside(a.cluster, b.cluster, job.id, q.database, q.username)
    && (Unopposed(b.frames[w], ViewOf(b, job.id), q) <==> Unopposed(a.frames[w], ViewOf(a, job.id), q))
    && (Left(b.frames[w].pc) == 0 || Left(b.frames[w].pc) + k <= Left(a.frames[w].pc))
  }

  lemma ProceedsOn(a: World, b: World, c: World, w: WorkerId, job: Job, q: Request, k: nat)
    requires Proceeds(a, b, w, job, q, k) && Proceeds(b, c, w, job, q, 1)
    ensures Proceeds(a, c, w, job, q, k + 1)
  {
    hide SameBeside, Unopposed;
    BesideOn(a.cluster, b.cluster, c.cluster, job.id, q.database, q.username);
  }

  lemma OneMoreStep(a: World, w: WorkerId, job: Job, q: Request)
    requires Pursues(a, w, job, q)
    ensures var b := Step(a, Work(w, GOOD)); Pursues(b, w, job, q) && Proceeds(a, b, w, job, q, 1)
  {
    var f, v, b := a.frames[w], ViewOf(a, job.id), Step(a, Work(w, GOOD));
    assert f.job == job && FrameOk(f, v) && v.row == RowOf(a.q.db, job.id) && v.c == a.cluster && WorksFrom(f, v.row, q);
    assert job.kind == Create || IsDelete(job.kind);
    assert Sound(a);
    hide *;
    var c := Advance(f, v, GOOD);
    FrameOwns(a, w);
    FrameIsLocal(a, w);
    WorkLocal(a, w, GOOD, c);
    StepKeepsJob(f, v, FoundFor(a, w), c);
    WorkShapes(a, w, GOOD, b, c);
    WorkKeeps(a, w, GOOD, b);
    OwnShape(f, v);
    StepWorksFrom(f, v, GOOD, c, q);
    StepUnopposed(f, v, FoundBy(a, job.op), c, q);
    Nearer(f, v, c);
    ShapePursues(a, w, b, c, job, q);
    ShapeProceeds(a, b, w, job, q);
  }

  lemma ShapeProceeds(a: World, b: World, w: WorkerId, job: Job, q: Request)
    requires w in a.frames && w in b.frames && FoundBy(b, job.op) == FoundBy(a, job.op)
    requires SameBeside(a.cluster, b.cluster, job.id, q.database, q.username)
    requires Unopposed(b.frames[w], ViewOf(b, job.id), q) <==> Unopposed(a.frames[w], ViewOf(a, job.id), q)
    requires Left(a.frames[w].pc) > 0 ==> Left(b.frames[w].pc) < Left(a.frames[w].pc)
    requires Left(a.frames[w].pc) == 0 ==> Left(b.frames[w].pc) == 0
    ensures Proceeds(a, b, w, job, q, 1)
  {
    hide SameBeside, Unopposed, Left;
  }

  lemma Nearer(f: Frame, v: View, c: Config)
    requires c == Advance(f, v, GOOD)
    ensures Left(f.pc) > 0 ==> Left(c.f.pc) < Left(f.pc)
    ensures Left(f.pc) == 0 ==> Left(c.f.pc) == 0
  {
    assert f.pc.Returned? ==> c.f == f && Left(f.pc) == 0;
    hide *;
    if !f.pc.Returned? {
      StepsShrink(f, v, GOOD, c);
    }
  }

  lemma ShapePursues(a: World, w: WorkerId, b: World, c: Config, job: Job, q: Request)
    requires WorkShape(a, w, b, c) && Sound(b) && c.f.job == job == a.frames[w].job && (job.kind == Create || IsDelete(job.kind))
    requires WorksFrom(c.f, c.v.row, q)
    ensures Pursues(b, w, job, q) && b.frames[w] == c.f && b.cluster == c.v.c && ViewOf(b, job.id) == c.v
    ensures FoundBy(b, job.op) == FoundBy(a, job.op)
  {
    hide Sound, WorksFrom;
    assert RowOf(b.q.db, job.id) == c.v.row;
  }

  lemma {:induction false} LeftAlone(a: World, w: WorkerId, k: nat, job: Job, q: Request)
    requires Pursues(a, w, job, q)
    ensures var b := Run(a, Working(w, k)); Pursues(b, w, job, q) && Proceeds(a, b, w, job, q, k)
  {
    hide *;
    WorkingIs(a, w, k);
    PursuesWorker(a, w, job, q);
    if k == 0 {
      NoEvents(a, w, job.id, q.database, q.username);
      ProceedsNowhere(a, w, job, q);
    } else {
      var b := Run(a, Working(w, k - 1));
      LeftAlone(a, w, k - 1, job, q);
      OneMoreStep(b, w, job, q);
      ProceedsOn(a, b, Run(a, Working(w, k)), w, job, q, k - 1);
    }
  }

  lemma ProceedsNowhere(a: World, w: WorkerId, job: Job, q: Request)
    requires w in a.frames && SameBeside(a.cluster, a.cluster, job.id, q.database, q.username)
    ensures Proceeds(a, a, w, job, q, 0)
  {
    hide SameBeside, Unopposed;
  }

  lemma ProceedsToEnd(a: World, b: World, w: WorkerId, job: Job, q: Request, k: nat)
    requires Proceeds(a, b, w, job, q, k) && Left(a.frames[w].pc) <= k
    ensures w in b.frames && Left(b.frames[w].pc) == 0 && FoundBy(b, job.op) == FoundBy(a, job.op)
    ensures SameBeside(a.cluster, b.cluster, job.id, q.database, q.username)
    ensures Unopposed(b.frames[w], ViewOf(b, job.id), q) <==> Unopposed(a.frames[w], ViewOf(a, job.id), q)
  {
    hide SameBeside, Unopposed;
    assert Left(b.frames[w].pc) + k <= Left(a.frames[w].pc) ==> Left(b.frames[w].pc) == 0;
  }

  lemma PursuesWorker(a: World, w: WorkerId, job: Job, q: Request)
    requires Pursues(a, w, job, q)
    ensures Sound(a) && w in a.frames && a.frames[w].job == job && WorksFrom(a.frames[w], RowOf(a.q.db, job.id), q)
  {
  }

  lemma WorkingIs(a: World, w: WorkerId, k: nat)
    ensures k == 0 ==> Run(a, Working(w, k)) == a
    ensures k > 0 ==> Run(a, Working(w, k)) == Step(Run(a, Working(w, k - 1)), Work(w, GOOD))
  {
    hide Step;
    if k > 0 {
      assert Working(w, k)[..k - 1] == Working(w, k - 1) && Working(w, k)[k - 1] == Work(w, GOOD);
    }
  }

  lemma NilIsUnopposed(f: Frame, v: View, q: Request)
    requires Left(f.pc) == 0
    ensures f.pc.Returned? && (f.pc == Returned(Nil) <==> Unopposed(f, v, q)) && (f.pc == Returned(Nil) ==> OnCourse(f.pc))
  {
  }

  /** A create whose worker is left alone for eighteen successful steps, whatever crashes have led to where it is,
      returns nil exactly when no call ahead of it is refused, and then has done what CreateConverges tells. It has
      made no panel exactly when the container it found was the backup utility's. */
  lemma CreateCompletes(a: World, w: WorkerId, id: Id, q: Request)
    requires Reachable(a) && w in a.frames && a.frames[w].job.kind == Create && a.frames[w].pc.Provisioning?
    requires id == a.frames[w].job.id && id in a.q.db.rows && q == a.q.db.rows[id].request
    ensures var b, found := Run(a, Working(w, 18)), FoundBy(a, a.frames[w].job.op);
      && w in b.frames && b.frames[w].job == a.frames[w].job && b.frames[w].pc.Returned?
      && (b.frames[w].pc == Returned(Nil) <==> Unopposed(a.frames[w], ViewOf(a, id), q))
      && (b.frames[w].pc == Returned(Nil) ==>
            && id in b.q.db.rows && b.q.db.rows[id].state == Active && b.q.db.rows[id].request == q
            && var x := Obj(b.objects, id);
               && Provisioned(x, b.cluster, id, q, found.Or(Panel(q)))
               && (x.container.value.spec.helper <==> found.Some? && found.value.helper))
  {
    hide *;
    var job, found, b := a.frames[w].job, FoundBy(a, a.frames[w].job.op), Run(a, Working(w, 18));
    ReachableIsSound(a);
    FrameIsLocal(a, w);
    ViewIs(a, id);
    CreateEntry(a.frames[w], ViewOf(a, id), found, q);
    Pursuing(a, w, q);
    LeftAlone(a, w, 18, job, q);
    PursuesWorker(b, w, job, q);
    LeftOfProvision(a.frames[w].pc);
    ProceedsToEnd(a, b, w, job, q, 18);
    ViewIs(b, id);
    NilIsUnopposed(b.frames[w], ViewOf(b, id), q);
    if b.frames[w].pc == Returned(Nil) {
      FrameIsLocal(b, w);
      CreateEnd(b.frames[w], ViewOf(b, id), found, q);
      HelperIff(Obj(b.objects, id), b.cluster, id, q, found);
    }
  }

  lemma Pursuing(a: World, w: WorkerId, q: Request)
    requires Sound(a) && w in a.frames && (a.frames[w].job.kind == Create || IsDelete(a.frames[w].job.kind))
    requires WorksFrom(a.frames[w], RowOf(a.q.db, a.frames[w].job.id), q)
    ensures Pursues(a, w, a.frames[w].job, q)
  {
  }

  lemma HelperIff(x: Objects, c: Cluster, id: Id, q: Request, found: Option<Spec>)
    requires Provisioned(x, c, id, q, found.Or(Panel(q)))
    ensures x.container.Single? && (x.container.value.spec.helper <==> found.Some? && found.value.helper)
  {
  }

  lemma LeftOfProvision(pc: Pc)
    requires pc.Provisioning?
    ensures Left(pc) <= 18
  {
  }

  /** A delete left alone for nine successful steps returns nil exactly when no call ahead of it is refused; a soft
      delete exactly when at most one container carries the deployment's labels. */
  lemma DeleteCompletes(a: World, w: WorkerId, id: Id, q: Request)
    requires Reachable(a) && w in a.frames && IsDelete(a.frames[w].job.kind) && a.frames[w].pc.Removing?
    requires id == a.frames[w].job.id && WorksFrom(a.frames[w], RowOf(a.q.db, id), q)
    ensures var b, f := Run(a, Working(w, 9)), a.frames[w];
      && w in b.frames && b.frames[w].job == f.job && b.frames[w].pc.Returned?
      && (b.frames[w].pc == Returned(Nil) <==> Unopposed(f, ViewOf(a, id), q))
      && (f.job.kind == DeleteSoft ==>
            (b.frames[w].pc == Returned(Nil) <==> !Obj(a.objects, id).container.Several?))
      && (b.frames[w].pc == Returned(Nil) ==> Removed(Obj(b.objects, id), b.cluster, id, q, f.job.kind == DeletePurge))
      && SameBeside(a.cluster, b.cluster, id, q.database, q.username)
  {
    hide *;
    var job, found, b := a.frames[w].job, FoundBy(a, a.frames[w].job.op), Run(a, Working(w, 9));
    ReachableIsSound(a);
    FrameIsLocal(a, w);
    DeleteEntry(a.frames[w], ViewOf(a, id), found);
    Pursuing(a, w, q);
    LeftAlone(a, w, 9, job, q);
    PursuesWorker(b, w, job, q);
    ProceedsToEnd(a, b, w, job, q, 9);
    ViewIs(a, id);
    ViewIs(b, id);
    NilIsUnopposed(b.frames[w], ViewOf(b, id), q);
    SoftIff(a.frames[w], ViewOf(a, id), found, q);
    if b.frames[w].pc == Returned(Nil) {
      FrameIsLocal(b, w);
      DeleteEnd(b.frames[w], ViewOf(b, id), found, q);
    }
  }

  lemma SoftIff(f: Frame, v: View, found: Option<Spec>, q: Request)
    requires LocalOk(f, v, found) && IsDelete(f.job.kind) && f.pc.Removing?
    ensures Unopposed(f, v, q) ==> !v.x.container.Several?
    ensures f.job.kind == DeleteSoft && !v.x.container.Several? ==> Unopposed(f, v, q)
  {
  }
}

/** The whole agent: the queue of the module Queue, with workers running the programs of the module Programs.
    Each API call and each worker's closing writes are one step here; everything else interleaves freely, and
    a worker or the whole process may stop between any two steps. */
module Agent {
  import opened Common
  import opened Lifecycle
  import opened Store
  import opened Host
  import opened Programs
  import Queue

  /** `found` is history: the spec of the one container that existed when a create was queued, if any. */
  datatype World = World(
    q: Queue.Machine,
    objects: map<Id, Objects>,
    cluster: Cluster,
    frames: map<WorkerId, Frame>,
    found: map<OpId, Option<Spec>>)

  datatype Event =
    | Submit(call: Queue.Call, draws: seq<Queue.Draw>)
    | Claim(w: WorkerId, op: OpId)
    | Work(w: WorkerId, e: Oracle)
    | Finish(w: WorkerId, text: string)
    | Abandon(w: WorkerId)
    | Crash

  function Obj(objects: map<Id, Objects>, id: Id): Objects {
    if id in objects then objects[id] else NoObjects
  }

  function ViewOf(a: World, id: Id): View {
    View(RowOf(a.q.db, id), Obj(a.objects, id), a.cluster)
  }

  /** What the agent starts from: an empty database, beside whatever Docker, disk and PostgreSQL hold. */
  function Begin(objects: map<Id, Objects>, cluster: Cluster): World {
    World(Queue.Init, objects, cluster, map[], map[])
  }

  /** The client number an API call uses while it is served. */
  const CALLER: ClientId := 0

  function Servings(draws: seq<Queue.Draw>): seq<Queue.Event> {
    seq(|draws|, i requires 0 <= i < |draws| => Queue.Serve(CALLER, draws[i]))
  }

  /** The row after the error path of a finished operation. */
  function FailedRow(row: Row, text: string): Row {
    if CanTransition(row.state, Failed) then row.(state := Failed, failedStep := text) else row
  }

  /** The database calls of one event, in order. A submission makes as many calls as it has draws and then
      stops, by completing, by an error or by a crash. */
  function Calls(a: World, e: Event): seq<Queue.Event> {
    match e
    case Submit(call, draws) => [Queue.Arrive(CALLER, call)] + Servings(draws) + [Queue.Leave(CALLER)]
    case Claim(w, op) => [Queue.Claim(w, op)]
    case Work(w, o) => if w in a.frames then WorkCalls(a, w, o) else []
    case Finish(w, text) => if w in a.frames then FinishCalls(a, w, text) else []
    case Abandon(w) => [Queue.Abandon(w)]
    case Crash => [Queue.Reboot]
  }

  function WorkCalls(a: World, w: WorkerId, o: Oracle): seq<Queue.Event>
    requires w in a.frames
  {
    var id := a.frames[w].job.id;
    var row := Advance(a.frames[w], ViewOf(a, id), o).v.row;
    if row.Some? then [Queue.WriteRow(id, row.value)] else []
  }

  function FinishCalls(a: World, w: WorkerId, text: string): seq<Queue.Event>
    requires w in a.frames
  {
    var f := a.frames[w];
    if !f.pc.Returned? then []
    else if f.pc.result == Err && f.job.id in a.q.db.rows then
      [Queue.Finish(w, false), Queue.WriteRow(f.job.id, FailedRow(a.q.db.rows[f.job.id], text))]
    else [Queue.Finish(w, f.pc.result == Nil)]
  }

  ghost function Step(a: World, e: Event): World {
    var q := Queue.Run(a.q, Calls(a, e));
    match e
    case Submit(call, _) => Submitted(a, q, call.id)
    case Claim(w, op) => Claimed(a, q, w, op)
    case Work(w, o) => if w in a.frames then Worked(a, q, w, o) else a
    case Finish(w, _) => if w in a.frames && a.frames[w].pc.Returned? then a.(q := q, frames := a.frames - {w}) else a
    case Abandon(w) => a.(q := q, frames := a.frames - {w})
    case Crash => a.(q := q, frames := map[])
  }

  function Submitted(a: World, q: Queue.Machine, id: Id): World {
    var x := Obj(a.objects, id);
    World(
      q,
      if RowOf(q.db, id) == RowOf(a.q.db, id) then a.objects else a.objects[id := x.(installed := false)],
      a.cluster,
      a.frames,
      if id in q.db.active && id !in a.q.db.active then a.found[q.db.active[id] := FoundSpec(x)] else a.found)
  }

  function FoundSpec(x: Objects): Option<Spec> {
    if x.container.Single? then Some(x.container.value.spec) else None
  }

  ghost function Claimed(a: World, q: Queue.Machine, w: WorkerId, op: OpId): World {
    if w in a.q.claims || !Claimable(a.q.db, op) then a
    else a.(q := q, frames := a.frames[w := NewFrame(op, a.q.db.ops[op])])
  }

  function Worked(a: World, q: Queue.Machine, w: WorkerId, o: Oracle): World
    requires w in a.frames
  {
    var f := a.frames[w];
    var c := Advance(f, ViewOf(a, f.job.id), o);
    World(q, a.objects[f.job.id := c.v.x], c.v.c, a.frames[w := c.f], a.found)
  }

  ghost function Run(a: World, events: seq<Event>): World {
    if events == [] then a else Step(Run(a, events[..|events| - 1]), events[|events| - 1])
  }

  /** Some run, from some surroundings, leads here. */
  ghost predicate Reachable(a: World) {
    exists objects, cluster, events :: a == Run(Begin(objects, cluster), events)
  }

  // ---- Every run of the agent is a run of the queue ----

  ghost function AllCalls(a: World, events: seq<Event>): seq<Queue.Event> {
    if events == [] then []
    else
      var before := events[..|events| - 1];
      AllCalls(a, before) + Calls(Run(a, before), events[|events| - 1])
  }

  lemma RunOne(q: Queue.Machine, e: Queue.Event)
    ensures Queue.Run(q, [e]) == Queue.Step(q, e)
  {
    assert [e][..0] == [];
  }

  lemma RunTwo(q: Queue.Machine, d: Queue.Event, e: Queue.Event)
    ensures Queue.Run(q, [d, e]) == Queue.Step(Queue.Step(q, d), e)
  {
    assert [d, e][..1] == [d];
    RunOne(q, d);
  }

  lemma StepIsCalls(a: World, e: Event)
    ensures Step(a, e).q == Queue.Run(a.q, Calls(a, e))
  {
    match e
    case Claim(w, op) =>
      RunOne(a.q, Queue.Claim(w, op));
    case Work(w, o) =>
    case Finish(w, text) =>
    case _ =>
  }

  /** The agent's database calls form a run of the queue machine, so everything proved of that machine holds of
      the agent. */
  lemma {:induction false} AgentRefinesQueue(objects: map<Id, Objects>, cluster: Cluster, events: seq<Event>)
    ensures var a := Begin(objects, cluster);
      Run(a, events).q == Queue.Run(Queue.Init, AllCalls(a, events))
  {
    var a := Begin(objects, cluster);
    if events != [] {
      var before := events[..|events| - 1];
      AgentRefinesQueue(objects, cluster, before);
      StepIsCalls(Run(a, before), events[|events| - 1]);
      Queue.RunAppends(Queue.Init, AllCalls(a, before), Calls(Run(a, before), events[|events| - 1]));
    }
  }
}

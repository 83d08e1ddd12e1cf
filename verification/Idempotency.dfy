/** What an Idempotency-Key promises: a stored response is replayed for ever, and calls that neither overlap nor
    stop halfway make at most one operation a key. */
module Idempotency {
  import opened Common
  import opened Store
  import opened Queue
  import Agent
  import Host
  import Soundness

  // ---- Stored responses, under any interleaving ----

  /** The answer a stored response gives to a later call under its key. */
  function Verdict(db: Db, call: Call): Answer
    requires call.key in db.keys
  {
    if db.keys[call.key].hash == call.hash then Replayed(db.keys[call.key].response) else Rejected(KeyReused)
  }

  /** Every client that has come since `q`, under a key stored by then, is answered from the store or not yet served. */
  ghost predicate LateClientsReplay(q: Machine, r: Machine) {
    forall c :: c in r.clients && c !in q.clients && r.clients[c].call.key in q.db.keys ==>
      r.clients[c].pc == LookUp || r.clients[c].pc == Answered(Verdict(q.db, r.clients[c].call))
  }

  lemma ServeLate(q: Machine, r: Machine, c: ClientId, draw: Draw)
    requires Grows(q, r) && LateClientsReplay(q, r) && c in r.clients
    requires c !in q.clients && r.clients[c].call.key in q.db.keys
    ensures var s := ServeClient(r, c, draw);
      && s.db == r.db && s.issued == r.issued && s.grants == r.grants && s.origin == r.origin
      && c in s.clients && s.clients[c] == Client(r.clients[c].call, Answered(Verdict(q.db, r.clients[c].call)))
      && (r.clients[c].pc.Answered? ==> r.clients[c].pc == s.clients[c].pc)
  {
    var call, pc := r.clients[c].call, r.clients[c].pc;
    if pc == LookUp {
      assert Perform(r.db, call, pc, draw, r.serials) == (r.db, Answered(Verdict(q.db, call)));
    } else {
      assert Perform(r.db, call, pc, draw, r.serials) == (r.db, pc);
    }
    hide Perform, Verdict;
  }

  lemma ServeKeepsOthers(r: Machine, c: ClientId, draw: Draw)
    requires c in r.clients
    ensures var s := ServeClient(r, c, draw);
      s.clients.Keys == r.clients.Keys && s.clients[c].call == r.clients[c].call
      && forall d :: d in r.clients && d != c ==> s.clients[d] == r.clients[d]
  {
  }

  lemma LateStep(q: Machine, r: Machine, e: Event)
    requires Grows(q, r) && LateClientsReplay(q, r)
    ensures LateClientsReplay(q, Step(r, e))
  {
    match e
    case Serve(c, draw) =>
      if c in r.clients {
        ServeKeepsOthers(r, c, draw);
        if c !in q.clients && r.clients[c].call.key in q.db.keys {
          ServeLate(q, r, c, draw);
        }
      }
    case _ =>
  }

  lemma {:induction false} LateRun(q: Machine, events: seq<Event>)
    requires Exclusive(q)
    ensures LateClientsReplay(q, Run(q, events)) && Grows(q, Run(q, events))
  {
    hide Step, LateClientsReplay, Grows, Exclusive;
    RunKeepsExclusive(q, events);
    if events == [] {
      LateNow(q);
    } else {
      LateRun(q, events[..|events| - 1]);
      LateStep(q, Run(q, events[..|events| - 1]), events[|events| - 1]);
    }
  }

  lemma LateNow(q: Machine)
    ensures LateClientsReplay(q, q)
  {
  }

  /** Once a response is stored under a key, then after any further events, whatever interleaves and crashes, a
      client that came later under that key is answered with the stored response when its request hash is the
      stored one and refused otherwise, and serving it changes nothing in the database: it makes no operation,
      spends no token and writes no row. */
  lemma StoredKeysReplay(before: seq<Event>, after: seq<Event>, c: ClientId, draw: Draw)
    requires var q, r := Run(Init, before), Run(Run(Init, before), after);
      c in r.clients && c !in q.clients && r.clients[c].call.key in q.db.keys
    ensures var q, r := Run(Init, before), Run(Run(Init, before), after);
      var s := ServeClient(r, c, draw);
      && s.db == r.db && s.issued == r.issued && s.grants == r.grants && s.origin == r.origin
      && c in s.clients && s.clients[c].pc == Answered(Verdict(q.db, r.clients[c].call))
      && (r.clients[c].pc.Answered? ==> r.clients[c].pc == s.clients[c].pc)
  {
    hide Run, ServeClient, Perform, Verdict;
    var q, r := Run(Init, before), Run(Run(Init, before), after);
    RunKeepsExclusive(Init, before);
    LateRun(q, after);
    ServeLate(q, r, c, draw);
  }

  // ---- One operation a key ----

  /** Every operation made so far has its key's response stored, and no two share a key. */
  ghost predicate KeysCover(q: Machine) {
    && q.origin.Keys == q.db.ops.Keys
    && (forall o :: o in q.origin ==> q.origin[o] in q.db.keys)
    && (forall o, p :: o in q.origin && p in q.origin && q.origin[o] == q.origin[p] ==> o == p)
  }

  ghost predicate OneMore(q: Machine, cur: Machine, key: string) {
    exists op :: op !in q.db.ops && cur.db.ops.Keys == q.db.ops.Keys + {op} && cur.origin == q.origin[op := key]
  }

  ghost predicate NoneMore(q: Machine, cur: Machine) {
    cur.db.ops.Keys == q.db.ops.Keys && cur.origin == q.origin
  }

  /** How far a call has come, told from its program point. */
  ghost predicate KeyPoint(q: Machine, cur: Machine, client: Client) {
    var key, pc := client.call.key, client.pc;
    && (!pc.Answered? ==> cur.db.keys == q.db.keys)
    && (!pc.Answered? && !pc.Remember? ==> NoneMore(q, cur))
    && (!pc.Answered? && !pc.LookUp? ==> key !in q.db.keys)
    && (pc.Remember? ==> NoneMore(q, cur) || OneMore(q, cur, key))
    && (pc.Answered? ==>
          || (NoneMore(q, cur) && q.db.keys.Keys <= cur.db.keys.Keys)
          || (key !in q.db.keys && OneMore(q, cur, key) && cur.db.keys.Keys == q.db.keys.Keys + {key}))
  }

  /** What one database call does to keys, operations and the program point. */
  lemma PerformBooks(db: Db, call: Call, pc: ClientPc, draw: Draw, serials: map<TokenKey, nat>, db': Db, pc': ClientPc)
    requires (db', pc') == Perform(db, call, pc, draw, serials)
    ensures !pc.Remember? ==> db'.keys == db.keys
    ensures !(pc.Insert? && pc'.Remember?) ==> db'.ops == db.ops
    ensures pc.Insert? && pc'.Remember? ==> draw.op !in db.ops && db'.ops.Keys == db.ops.Keys + {draw.op}
    ensures pc.LookUp? && !pc'.Answered? ==> call.key !in db.keys
    ensures pc'.LookUp? ==> pc.LookUp?
    ensures pc'.Remember? ==> pc.Insert? || pc.Issue?
    ensures pc.Remember? ==> pc'.Answered? && (call.key !in db.keys ==> db'.keys.Keys == db.keys.Keys + {call.key})
    ensures pc.Answered? ==> pc'.Answered?
  {
    match pc
    case LookUp =>
    case Inspect =>
    case Count =>
    case AddRow =>
    case RenewRow(prior) =>
    case Issue =>
    case Spend =>
    case Insert(_) =>
    case Remember(_) =>
    case Answered(_) =>
  }

  lemma ServeOrigin(cur: Machine, c: ClientId, draw: Draw, next: Machine)
    requires c in cur.clients && next == ServeClient(cur, c, draw)
    ensures c in next.clients && next.clients[c].call == cur.clients[c].call
    ensures (next.db, next.clients[c].pc) == Perform(cur.db, cur.clients[c].call, cur.clients[c].pc, draw, cur.serials)
    ensures next.origin ==
      if cur.clients[c].pc.Insert? && next.clients[c].pc.Remember? then cur.origin[draw.op := cur.clients[c].call.key]
      else cur.origin
  {
    hide Perform;
  }

  lemma ServeKeyPoint(q: Machine, cur: Machine, c: ClientId, draw: Draw, next: Machine)
    requires c in cur.clients && KeyPoint(q, cur, cur.clients[c]) && next == ServeClient(cur, c, draw)
    ensures c in next.clients && KeyPoint(q, next, next.clients[c]) && next.clients[c].call == cur.clients[c].call
  {
    ServeOrigin(cur, c, draw, next);
    PerformBooks(cur.db, cur.clients[c].call, cur.clients[c].pc, draw, cur.serials, next.db, next.clients[c].pc);
    hide ServeClient, Perform;
    var pc, pc' := cur.clients[c].pc, next.clients[c].pc;
    if pc.Insert? && pc'.Remember? {
      assert draw.op !in q.db.ops && next.db.ops.Keys == q.db.ops.Keys + {draw.op};
      assert OneMore(q, next, cur.clients[c].call.key);
    } else if pc.Remember? {
      if OneMore(q, cur, cur.clients[c].call.key) {
        assert OneMore(q, next, cur.clients[c].call.key);
      }
    }
  }

  /** The queue while one call is served with nothing beside it. */
  ghost predicate Alone(q: Machine, cur: Machine, call: Call) {
    && cur.clients.Keys == {Agent.CALLER} && cur.clients[Agent.CALLER].call == call
    && KeyPoint(q, cur, cur.clients[Agent.CALLER])
  }

  lemma {:induction false} ServingsAlone(q: Machine, cur: Machine, call: Call, draws: seq<Draw>)
    requires Alone(q, cur, call)
    ensures Alone(q, Run(cur, Agent.Servings(draws)), call)
  {
    hide KeyPoint, Step;
    var s := Agent.Servings(draws);
    if draws != [] {
      var n := |draws| - 1;
      assert s[..n] == Agent.Servings(draws[..n]) && s[n] == Serve(Agent.CALLER, draws[n]);
      ServingsAlone(q, cur, call, draws[..n]);
      var prior, next := Run(cur, s[..n]), Run(cur, s);
      ServeStep(prior, Agent.CALLER, draws[n]);
      ServeKeyPoint(q, prior, Agent.CALLER, draws[n], next);
      ServeKeepsOthers(prior, Agent.CALLER, draws[n]);
    }
  }

  lemma ServeStep(q: Machine, c: ClientId, draw: Draw)
    requires c in q.clients
    ensures Step(q, Serve(c, draw)) == ServeClient(q, c, draw)
  {
    hide ServeClient;
  }

  /** The machine at the end of an API call, just before the client leaves. */
  ghost function AtEnd(q: Machine, call: Call, draws: seq<Draw>): Machine {
    Run(Arrived(q, Agent.CALLER, call), Agent.Servings(draws))
  }

  /** The call was served to its answer. */
  ghost predicate Complete(q: Machine, call: Call, draws: seq<Draw>) {
    var r := AtEnd(q, call, draws);
    Agent.CALLER in r.clients ==> r.clients[Agent.CALLER].pc.Answered?
  }

  lemma SubmitIsAtEnd(q: Machine, call: Call, draws: seq<Draw>)
    ensures Run(q, [Arrive(Agent.CALLER, call)] + Agent.Servings(draws) + [Leave(Agent.CALLER)]) ==
      Step(AtEnd(q, call, draws), Leave(Agent.CALLER))
  {
    var arrive, serve, leave := [Arrive(Agent.CALLER, call)], Agent.Servings(draws), [Leave(Agent.CALLER)];
    RunAppends(q, arrive + serve, leave);
    RunAppends(q, arrive, serve);
    Agent.RunOne(q, arrive[0]);
    Agent.RunOne(AtEnd(q, call, draws), leave[0]);
  }

  lemma {:induction false} NobodyServed(q: Machine, draws: seq<Draw>)
    requires q.clients == map[]
    ensures Run(q, Agent.Servings(draws)) == q
  {
    var s := Agent.Servings(draws);
    if draws != [] {
      var n := |draws| - 1;
      assert s[..n] == Agent.Servings(draws[..n]) && s[n] == Serve(Agent.CALLER, draws[n]);
      NobodyServed(q, draws[..n]);
    }
  }

  lemma EndKeepsCover(q: Machine, r: Machine, call: Call, client: Client)
    requires KeysCover(q) && KeyPoint(q, r, client) && client.pc.Answered?
    ensures KeysCover(r)
  {
  }

  lemma CompleteKeepsCover(q: Machine, call: Call, draws: seq<Draw>)
    requires KeysCover(q) && q.clients == map[] && Complete(q, call, draws)
    ensures KeysCover(Step(AtEnd(q, call, draws), Leave(Agent.CALLER)))
  {
    var r := AtEnd(q, call, draws);
    if Routable(call) {
      var first := Arrived(q, Agent.CALLER, call);
      assert first.clients[Agent.CALLER] == Client(call, LookUp);
      assert Alone(q, first, call);
      ServingsAlone(q, first, call, draws);
      hide KeyPoint, KeysCover;
      EndKeepsCover(q, r, call, r.clients[Agent.CALLER]);
      CoverIgnoresClients(r, r.(clients := r.clients - {Agent.CALLER}));
    } else {
      NobodyServed(q, draws);
    }
  }

  lemma CoverIgnoresClients(q: Machine, r: Machine)
    requires KeysCover(q) && q.origin == r.origin && q.db.keys == r.db.keys && q.db.ops.Keys == r.db.ops.Keys
    ensures KeysCover(r)
  {
  }

  lemma QuietStepKeepsCover(q: Machine, e: Event)
    requires Exclusive(q) && KeysCover(q) && !e.Serve?
    ensures KeysCover(Step(q, e))
  {
    StepKeepsExclusive(q, e);
    QuietStepKeepsOrigin(q, e);
    hide Step, Exclusive;
  }

  lemma QuietStepKeepsOrigin(q: Machine, e: Event)
    requires !e.Serve? && Exclusive(q)
    ensures Step(q, e).origin == q.origin && Step(q, e).db.ops.Keys == q.db.ops.Keys
  {
    if e.Finish? && e.w in q.claims {
      CloseEffect(q.db, q.claims[e.w], e.ok);
    }
    hide Queue.Close, Claimable, IndexOk;
    match e
    case _ =>
  }

  lemma {:induction false} QuietRunKeepsCover(q: Machine, events: seq<Event>)
    requires Exclusive(q) && KeysCover(q) && forall i | 0 <= i < |events| :: !events[i].Serve?
    ensures KeysCover(Run(q, events))
  {
    hide Step, Exclusive, KeysCover;
    if events != [] {
      var n := |events| - 1;
      QuietRunKeepsCover(q, events[..n]);
      RunKeepsExclusive(q, events[..n]);
      QuietStepKeepsCover(Run(q, events[..n]), events[n]);
    }
  }

  /** Every API call of this run is served to its answer. */
  ghost predicate AllComplete(a: Agent.World, events: seq<Agent.Event>) {
    forall i | 0 <= i < |events| ::
      events[i].Submit? ==> Complete(Agent.Run(a, events[..i]).q, events[i].call, events[i].draws)
  }

  lemma OtherCallsAreQuiet(a: Agent.World, e: Agent.Event)
    requires !e.Submit?
    ensures forall i | 0 <= i < |Agent.Calls(a, e)| :: !Agent.Calls(a, e)[i].Serve?
  {
    match e
    case _ =>
  }

  lemma AgentStepKeepsCover(a: Agent.World, e: Agent.Event)
    requires Exclusive(a.q) && a.q.clients == map[] && KeysCover(a.q)
    requires e.Submit? ==> Complete(a.q, e.call, e.draws)
    ensures KeysCover(Agent.Step(a, e).q)
  {
    Agent.StepIsCalls(a, e);
    if e.Submit? {
      assert Agent.Calls(a, e) == [Arrive(Agent.CALLER, e.call)] + Agent.Servings(e.draws) + [Leave(Agent.CALLER)];
      hide *;
      SubmitIsAtEnd(a.q, e.call, e.draws);
      CompleteKeepsCover(a.q, e.call, e.draws);
    } else {
      hide *;
      OtherCallsAreQuiet(a, e);
      QuietRunKeepsCover(a.q, Agent.Calls(a, e));
    }
  }

  lemma SoundGives(a: Agent.World)
    requires Soundness.Sound(a)
    ensures Exclusive(a.q) && a.q.clients == map[]
  {
  }

  /** In a run whose API calls do not overlap and are each served to their answer, with workers, failures and
      crashes between them, at most one operation is ever made under one key. */
  lemma {:induction false} OneOperationPerKey(objects: map<Id, Host.Objects>, cluster: Host.Cluster, events: seq<Agent.Event>)
    requires AllComplete(Agent.Begin(objects, cluster), events)
    ensures var q := Agent.Run(Agent.Begin(objects, cluster), events).q;
      && q.origin.Keys == q.db.ops.Keys
      && (forall o, p :: o in q.origin && p in q.origin && q.origin[o] == q.origin[p] ==> o == p)
      && (forall o :: o in q.origin ==> q.origin[o] in q.db.keys)
  {
    RunKeepsCover(objects, cluster, events);
  }

  lemma {:induction false} RunKeepsCover(objects: map<Id, Host.Objects>, cluster: Host.Cluster, events: seq<Agent.Event>)
    requires AllComplete(Agent.Begin(objects, cluster), events)
    ensures KeysCover(Agent.Run(Agent.Begin(objects, cluster), events).q)
  {
    hide Agent.Step, Complete, Soundness.Sound, Exclusive;
    var a := Agent.Begin(objects, cluster);
    if events != [] {
      var n := |events| - 1;
      var before := events[..n];
      forall i | 0 <= i < n ensures before[..i] == events[..i] && before[i] == events[i] {}
      RunKeepsCover(objects, cluster, before);
      Soundness.RunKeeps(objects, cluster, before);
      SoundGives(Agent.Run(a, before));
      hide KeysCover;
      AgentStepKeepsCover(Agent.Run(a, before), events[n]);
    }
  }

  // ---- Calls that overlap, under different keys ----

  predicate InFlight(q: Machine, c: ClientId, key: string) {
    c in q.clients && !q.clients[c].pc.Answered? && q.clients[c].call.key == key
  }

  /** No two calls under one key are being served. */
  ghost predicate KeysApart(q: Machine) {
    forall c, d, key :: InFlight(q, c, key) && InFlight(q, d, key) ==> c == d
  }

  predicate Storing(q: Machine, c: ClientId) {
    c in q.clients && q.clients[c].pc.Remember?
  }

  /** The event does not take a client away between its operation and the storing of its response. */
  ghost predicate LetsStore(q: Machine, e: Event) {
    && (e.Leave? ==> !Storing(q, e.c))
    && (e.Reboot? ==> forall c :: !Storing(q, c))
  }

  predicate Stored(q: Machine, key: string) {
    key in q.db.keys
  }

  ghost predicate BeingStored(q: Machine, key: string) {
    exists c :: Storing(q, c) && q.clients[c].call.key == key
  }

  predicate MadeUnder(q: Machine, o: OpId, key: string) {
    o in q.origin && q.origin[o] == key
  }

  /** Every operation's key has its response stored or is about to have it, and whoever is past the look-up has a key
      of its own. */
  ghost predicate Booked(q: Machine) {
    && q.origin.Keys == q.db.ops.Keys
    && (forall o, key :: MadeUnder(q, o, key) ==> Stored(q, key) || BeingStored(q, key))
    && (forall o, p, key :: MadeUnder(q, o, key) && MadeUnder(q, p, key) ==> o == p)
    && (forall c, key :: InFlight(q, c, key) && !q.clients[c].pc.LookUp? ==> !Stored(q, key))
    && (forall c, o, key :: InFlight(q, c, key) && !q.clients[c].pc.LookUp? && !Storing(q, c) ==> !MadeUnder(q, o, key))
  }

  /** What being served does to one client, the keys and the origins. */
  ghost predicate Turned(q: Machine, c: ClientId, r: Machine) {
    && c in q.clients && c in r.clients && r.clients == q.clients[c := r.clients[c]] && r.clients[c].call == q.clients[c].call
    && var pc, pc', key := q.clients[c].pc, r.clients[c].pc, q.clients[c].call.key;
       && (!pc.Remember? ==> r.db.keys == q.db.keys)
       && (pc.Remember? ==> pc'.Answered? && r.db.keys.Keys == q.db.keys.Keys + {key})
       && (pc.Answered? ==> pc'.Answered?) && (pc'.LookUp? ==> pc.LookUp?)
       && (pc.LookUp? && !pc'.Answered? ==> key !in q.db.keys && !pc'.Remember?)
       && (if r.origin == q.origin then r.db.ops.Keys == q.db.ops.Keys
           else
             && pc.Insert? && pc'.Remember?
             && exists op :: op !in q.db.ops && r.db.ops.Keys == q.db.ops.Keys + {op} && r.origin == q.origin[op := key])
  }

  lemma ServeTurns(q: Machine, c: ClientId, draw: Draw, r: Machine)
    requires c in q.clients && r == ServeClient(q, c, draw) && q.origin.Keys == q.db.ops.Keys
    requires q.clients[c].pc.Remember? ==> q.clients[c].call.key !in q.db.keys
    ensures Turned(q, c, r)
  {
    ServeOrigin(q, c, draw, r);
    PerformBooks(q.db, q.clients[c].call, q.clients[c].pc, draw, q.serials, r.db, r.clients[c].pc);
    ServeKeepsOthers(q, c, draw);
    hide ServeClient, Perform;
    if q.clients[c].pc.Insert? && r.clients[c].pc.Remember? {
      assert draw.op !in q.db.ops && r.origin == q.origin[draw.op := q.clients[c].call.key];
      assert draw.op in r.origin && draw.op !in q.origin;
    }
  }

  lemma OthersInFlight(q: Machine, c: ClientId, r: Machine, d: ClientId, key: string)
    requires Turned(q, c, r) && InFlight(r, d, key)
    ensures InFlight(q, d, key)
    ensures d != c ==> r.clients[d] == q.clients[d]
  {
  }

  lemma TurnBooksStored(q: Machine, c: ClientId, r: Machine, o: OpId, key: string)
    requires Booked(q) && Turned(q, c, r) && MadeUnder(r, o, key)
    ensures Stored(r, key) || BeingStored(r, key)
  {
    if MadeUnder(q, o, key) {
      if BeingStored(q, key) && !Stored(q, key) {
        var d :| Storing(q, d) && q.clients[d].call.key == key;
        if d != c {
          assert Storing(r, d) && r.clients[d].call.key == key;
        }
      }
    } else {
      assert Storing(r, c) && r.clients[c].call.key == key;
    }
  }

  lemma TurnKeepsApart(q: Machine, c: ClientId, r: Machine, o: OpId, p: OpId, key: string)
    requires Booked(q) && Turned(q, c, r) && MadeUnder(r, o, key) && MadeUnder(r, p, key)
    ensures o == p
  {
    if r.origin == q.origin {
      assert MadeUnder(q, o, key) && MadeUnder(q, p, key);
    } else {
      assert InFlight(q, c, q.clients[c].call.key);
      if key == q.clients[c].call.key {
        assert !MadeUnder(q, o, key) && !MadeUnder(q, p, key);
      } else {
        assert MadeUnder(q, o, key) && MadeUnder(q, p, key);
      }
    }
  }

  lemma TurnKeepsUnstored(q: Machine, c: ClientId, r: Machine, d: ClientId, key: string)
    requires Booked(q) && KeysApart(q) && Turned(q, c, r) && InFlight(r, d, key) && !r.clients[d].pc.LookUp?
    ensures !Stored(r, key)
  {
    OthersInFlight(q, c, r, d, key);
    if d != c {
      assert !InFlight(q, c, key);
    }
  }

  lemma TurnKeepsUnmade(q: Machine, c: ClientId, r: Machine, d: ClientId, o: OpId, key: string)
    requires Booked(q) && KeysApart(q) && Turned(q, c, r) && InFlight(r, d, key) && !r.clients[d].pc.LookUp? && !Storing(r, d)
    ensures !MadeUnder(r, o, key)
  {
    OthersInFlight(q, c, r, d, key);
    if d != c {
      assert !InFlight(q, c, key);
      assert MadeUnder(r, o, key) ==> MadeUnder(q, o, key);
    } else {
      assert r.origin == q.origin && (MadeUnder(r, o, key) <==> MadeUnder(q, o, key)) && !Storing(q, c);
      if q.clients[c].pc.LookUp? {
        if MadeUnder(q, o, key) {
          assert !Stored(q, key) && BeingStored(q, key);
          var b :| Storing(q, b) && q.clients[b].call.key == key;
          assert InFlight(q, b, key) && InFlight(q, c, key);
          assert false;
        }
      } else {
        assert InFlight(q, c, key);
      }
    }
  }

  lemma TurnKeepsBooked(q: Machine, c: ClientId, r: Machine)
    requires Booked(q) && KeysApart(q) && Turned(q, c, r)
    ensures Booked(r)
  {
    assert r.origin.Keys == r.db.ops.Keys;
    forall o, key | MadeUnder(r, o, key) ensures Stored(r, key) || BeingStored(r, key) {
      TurnBooksStored(q, c, r, o, key);
    }
    forall o, p, key | MadeUnder(r, o, key) && MadeUnder(r, p, key) ensures o == p {
      TurnKeepsApart(q, c, r, o, p, key);
    }
    forall d, key | InFlight(r, d, key) && !r.clients[d].pc.LookUp? ensures !Stored(r, key) {
      TurnKeepsUnstored(q, c, r, d, key);
    }
    forall d, o, key | InFlight(r, d, key) && !r.clients[d].pc.LookUp? && !Storing(r, d) ensures !MadeUnder(r, o, key) {
      TurnKeepsUnmade(q, c, r, d, o, key);
    }
  }

  lemma QuietKeys(q: Machine, e: Event)
    requires !e.Serve? && Exclusive(q)
    ensures Step(q, e).db.keys == q.db.keys
  {
    if e.Finish? && e.w in q.claims {
      CloseEffect(q.db, q.claims[e.w], e.ok);
    }
    hide Queue.Close, Claimable, IndexOk, Exclusive;
    match e
    case _ =>
  }

  lemma QuietClients(q: Machine, e: Event)
    requires !e.Serve?
    ensures var r := Step(q, e);
      && (forall c :: c in r.clients ==> (c in q.clients && r.clients[c] == q.clients[c]) || r.clients[c].pc == LookUp)
      && (LetsStore(q, e) ==> forall c :: Storing(q, c) ==> c in r.clients && r.clients[c] == q.clients[c])
  {
    hide Queue.Close, Claimable, Requeue, MarkRunning, SaveRow;
    match e
    case _ =>
  }

  lemma SameBooks(q: Machine, r: Machine)
    requires Booked(q) && r.origin == q.origin && r.db.ops.Keys == q.db.ops.Keys && r.db.keys == q.db.keys
    requires forall c :: c in r.clients ==> (c in q.clients && r.clients[c] == q.clients[c]) || r.clients[c].pc == LookUp
    requires forall c :: Storing(q, c) ==> c in r.clients && r.clients[c] == q.clients[c]
    ensures Booked(r)
  {
    forall o, key | MadeUnder(r, o, key) ensures Stored(r, key) || BeingStored(r, key) {
      assert MadeUnder(q, o, key);
      if !Stored(q, key) {
        var c :| Storing(q, c) && q.clients[c].call.key == key;
        assert Storing(r, c) && r.clients[c].call.key == key;
      }
    }
    assert forall o, key :: MadeUnder(r, o, key) ==> MadeUnder(q, o, key);
    assert forall c, key :: InFlight(r, c, key) && !r.clients[c].pc.LookUp? ==> InFlight(q, c, key) && r.clients[c] == q.clients[c];
  }

  lemma QuietKeepsBooked(q: Machine, e: Event, r: Machine)
    requires Booked(q) && Exclusive(q) && !e.Serve? && LetsStore(q, e) && r == Step(q, e)
    ensures Booked(r)
  {
    hide *;
    QuietStepKeepsOrigin(q, e);
    QuietKeys(q, e);
    QuietClients(q, e);
    SameBooks(q, r);
  }

  lemma StepKeepsBooked(q: Machine, e: Event, r: Machine)
    requires Booked(q) && Exclusive(q) && KeysApart(q) && LetsStore(q, e) && r == Step(q, e)
    ensures Booked(r)
  {
    if e.Serve? {
      if e.c in q.clients {
        assert Storing(q, e.c) ==> InFlight(q, e.c, q.clients[e.c].call.key) && !Stored(q, q.clients[e.c].call.key);
        ServeStep(q, e.c, e.draw);
        hide *;
        ServeTurnsBooked(q, e.c, e.draw, r);
      }
    } else {
      hide *;
      QuietKeepsBooked(q, e, r);
    }
  }

  lemma ServeTurnsBooked(q: Machine, c: ClientId, draw: Draw, r: Machine)
    requires Booked(q) && KeysApart(q) && c in q.clients && r == ServeClient(q, c, draw)
    ensures Booked(r)
  {
    assert Storing(q, c) ==> InFlight(q, c, q.clients[c].call.key);
    ServeTurns(q, c, draw, r);
    hide *;
    TurnKeepsBooked(q, c, r);
  }

  /** Calls may overlap, database call by database call, as long as no two under one key are served at a time and none
      is taken away between its operation and its stored response: then too at most one operation is made under a
      key. */
  lemma {:induction false} KeysApartSuffice(events: seq<Event>)
    requires forall i | 0 <= i < |events| ::
      KeysApart(Run(Init, events[..i])) && LetsStore(Run(Init, events[..i]), events[i])
    ensures var q := Run(Init, events);
      && Booked(q)
      && (forall o, p :: o in q.origin && p in q.origin && q.origin[o] == q.origin[p] ==> o == p)
  {
    hide Step, Booked, KeysApart, LetsStore, Exclusive;
    RunKeepsExclusive(Init, events);
    if events == [] {
      BookedAtFirst();
    } else {
      var m := |events| - 1;
      var before := events[..m];
      forall i | 0 <= i < m ensures KeysApart(Run(Init, before[..i])) && LetsStore(Run(Init, before[..i]), before[i]) {
        assert before[..i] == events[..i];
      }
      KeysApartSuffice(before);
      RunKeepsExclusive(Init, before);
      StepKeepsBooked(Run(Init, before), events[m], Run(Init, events));
    }
    BookedTells(Run(Init, events));
  }

  lemma BookedAtFirst()
    ensures Booked(Init) && Exclusive(Init)
  {
  }

  lemma BookedTells(q: Machine)
    requires Booked(q)
    ensures forall o, p :: o in q.origin && p in q.origin && q.origin[o] == q.origin[p] ==> o == p
  {
    forall o, p | o in q.origin && p in q.origin && q.origin[o] == q.origin[p] ensures o == p {
      assert MadeUnder(q, o, q.origin[o]) && MadeUnder(q, p, q.origin[o]);
    }
  }
}

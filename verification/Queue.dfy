/** The agent at the granularity of one database call: HTTP clients and queue workers interleave freely,
    and the process may die between any two calls. What the workers write into deployment rows is left
    arbitrary here; the module Agent fills it in. */
module Queue {
  import opened Common
  import opened Lifecycle
  import opened Store

  /** One API call, with the random values drawn for it. `key` is the lower-cased idempotency key and `hash`
      the digest of method, path and body. */
  datatype Call =
    | CreateCall(id: Id, key: string, hash: Hash, request: Request, aliases: string,
        limit: nat, memoryOk: bool, secret: string, bootstrap: string)
    | ActionCall(id: Id, key: string, hash: Hash, kind: Kind, payload: Payload)
    | TokenCall(id: Id, key: string, hash: Hash)
    | PurgeCall(id: Id, key: string, hash: Hash, token: string)

  datatype Reason = KeyReused | NoDeployment | Busy | Capacity | BadToken

  datatype Answer = Fresh(response: Response) | Replayed(response: Response) | Rejected(reason: Reason)

  datatype ClientPc =
    | LookUp
    | Inspect
    | Count
    | AddRow
    | RenewRow(prior: Row)
    | Issue
    | Spend
    | Insert(serial: Option<nat>)
    | Remember(response: Response)
    | Answered(answer: Answer)

  datatype Client = Client(call: Call, pc: ClientPc)

  /** Values drawn from the clock, the id generator and the secret generator at one call. */
  datatype Draw = Draw(op: OpId, now: string, expires: string, token: string)

  /** `issued`, `serials`, `grants` and `origin` are history: which issuance a token row stems from, which
      issuance paid for a purge, and under which idempotency key an operation was made. */
  datatype Machine = Machine(
    db: Db,
    claims: map<WorkerId, OpId>,
    clients: map<ClientId, Client>,
    issued: seq<Id>,
    serials: map<TokenKey, nat>,
    grants: map<OpId, nat>,
    origin: map<OpId, string>)

  datatype Event =
    | Arrive(c: ClientId, call: Call)
    | Serve(c: ClientId, draw: Draw)
    | Leave(c: ClientId)
    | Claim(w: WorkerId, op: OpId)
    | WriteRow(id: Id, row: Row)
    | Finish(w: WorkerId, ok: bool)
    | Abandon(w: WorkerId)
    | Reboot

  const Init := Machine(EmptyDb, map[], map[], [], map[], map[], map[])

  function KindOf(call: Call): Kind {
    match call
    case CreateCall(_, _, _, _, _, _, _, _, _) => Create
    case ActionCall(_, _, _, kind, _) => kind
    case TokenCall(_, _, _) => AdminReset
    case PurgeCall(_, _, _, _) => DeletePurge
  }

  /** The routes only submit these kinds through the generic path. */
  predicate Routable(call: Call) {
    call.ActionCall? ==> !call.kind.Create? && !call.kind.DeletePurge?
  }

  function NewRow(call: Call): Row
    requires call.CreateCall?
  {
    Row(call.request, Pending, REFERENCE, Some(call.secret), Some(call.bootstrap), "")
  }

  function RenewedRow(prior: Row, call: Call): Row
    requires call.CreateCall?
  {
    if prior.secret.Some? then Row(call.request, Pending, prior.reference, prior.secret, Some(call.bootstrap), "")
    else NewRow(call)
  }

  function NewOperation(call: Call, now: string): Operation {
    Operation(call.id, KindOf(call), if call.ActionCall? then call.payload else NoPayload, Queued, now)
  }

  function Aliases(call: Call): string {
    if call.CreateCall? then call.aliases else ""
  }

  function AfterLookUp(db: Db, call: Call): ClientPc {
    if call.key in db.keys then
      if db.keys[call.key].hash == call.hash then Answered(Replayed(db.keys[call.key].response))
      else Answered(Rejected(KeyReused))
    else if call.PurgeCall? then Spend
    else Inspect
  }

  function AfterInspect(db: Db, call: Call): ClientPc {
    if call.CreateCall? then
      if call.id !in db.rows then Count
      else if db.rows[call.id].state == Deleted || db.rows[call.id].state == Failed then RenewRow(db.rows[call.id])
      else Answered(Rejected(Busy))
    else if call.id !in db.rows then Answered(Rejected(NoDeployment))
    else if call.TokenCall? then Issue
    else Insert(None)
  }

  function AfterCount(db: Db, call: Call): ClientPc {
    if call.CreateCall? && CountRows(db) < call.limit && call.memoryOk then AddRow
    else Answered(Rejected(Capacity))
  }

  /** The database call a client makes at its program point, and the point it reaches. */
  function Perform(db: Db, call: Call, pc: ClientPc, draw: Draw, serials: map<TokenKey, nat>): (Db, ClientPc) {
    match pc
    case LookUp => (db, AfterLookUp(db, call))
    case Inspect => (db, AfterInspect(db, call))
    case Count => (db, AfterCount(db, call))
    case AddRow => PerformAddRow(db, call)
    case RenewRow(prior) => PerformRenewRow(db, call, prior)
    case Issue =>
      var (db', reply) := IssueToken(db, TokenKey(call.id, Sha256(draw.token)), draw.expires);
      (db', if reply.Done? then Remember(TokenIssued(draw.token, draw.expires)) else Answered(Rejected(Busy)))
    case Spend => PerformSpend(db, call, draw, serials)
    case Insert(_) =>
      var (db', reply) := InsertOperation(db, draw.op, NewOperation(call, draw.now));
      (db', if reply.Done? then Remember(Accepted(draw.op, call.id, Aliases(call))) else Answered(Rejected(Busy)))
    case Remember(response) =>
      var (db', reply) := PutKey(db, call.key, Remembered(call.hash, response));
      (db', Answered(if reply.Done? then Fresh(response) else Rejected(KeyReused)))
    case Answered(_) => (db, pc)
  }

  function PerformAddRow(db: Db, call: Call): (Db, ClientPc) {
    if !call.CreateCall? then (db, AddRow)
    else
      var (db', reply) := InsertRow(db, call.id, NewRow(call));
      (db', if reply.Done? then Insert(None) else Answered(Rejected(Busy)))
  }

  function PerformRenewRow(db: Db, call: Call, prior: Row): (Db, ClientPc) {
    if !call.CreateCall? then (db, RenewRow(prior))
    else
      var (db', reply) := SaveRow(db, call.id, RenewedRow(prior, call));
      (db', if reply.Done? then Insert(None) else Answered(Rejected(NoDeployment)))
  }

  function PerformSpend(db: Db, call: Call, draw: Draw, serials: map<TokenKey, nat>): (Db, ClientPc) {
    if !call.PurgeCall? then (db, Spend)
    else
      var key := TokenKey(call.id, Sha256(call.token));
      if Spendable(db, key, draw.now) && key in serials then
        (SpendToken(db, key, draw.now).0, Insert(Some(serials[key])))
      else (db, Answered(Rejected(BadToken)))
  }

  function ServeClient(q: Machine, c: ClientId, draw: Draw): Machine
    requires c in q.clients
  {
    var Client(call, pc) := q.clients[c];
    var (db, pc') := Perform(q.db, call, pc, draw, q.serials);
    var q' := At(q.(db := db), c, pc');
    if pc.Issue? && pc'.Remember? then
      q'.(issued := q.issued + [call.id],
          serials := q.serials[TokenKey(call.id, Sha256(draw.token)) := |q.issued|])
    else if pc.Insert? && pc'.Remember? then
      q'.(grants := if pc.serial.Some? then q.grants[draw.op := pc.serial.value] else q.grants,
          origin := q.origin[draw.op := call.key])
    else q'
  }

  function At(q: Machine, c: ClientId, pc: ClientPc): Machine
    requires c in q.clients
  {
    q.(clients := q.clients[c := q.clients[c].(pc := pc)])
  }

  function Close(db: Db, op: OpId, ok: bool): Db {
    if op !in db.ops then db
    else if !ok then FailOperation(db, op)
    else if db.ops[op].kind == DeletePurge then CompletePurge(db, op, db.ops[op].deployment).0
    else CompleteOperation(db, op).0
  }

  function Arrived(q: Machine, c: ClientId, call: Call): Machine {
    if c in q.clients || !Routable(call) then q else q.(clients := q.clients[c := Client(call, LookUp)])
  }

  function Served(q: Machine, c: ClientId, draw: Draw): Machine {
    if c in q.clients then ServeClient(q, c, draw) else q
  }

  ghost function Claimed(q: Machine, w: WorkerId, op: OpId): Machine {
    if w in q.claims || !Claimable(q.db, op) then q
    else q.(db := MarkRunning(q.db, op), claims := q.claims[w := op])
  }

  function Finished(q: Machine, w: WorkerId, ok: bool): Machine {
    if w !in q.claims then q
    else q.(db := Close(q.db, q.claims[w], ok), claims := q.claims - {w})
  }

  function Rebooted(q: Machine): Machine {
    q.(db := Requeue(q.db), claims := map[], clients := map[])
  }

  ghost function Step(q: Machine, e: Event): Machine {
    match e
    case Arrive(c, call) => Arrived(q, c, call)
    case Serve(c, draw) => Served(q, c, draw)
    case Leave(c) => q.(clients := q.clients - {c})
    case Claim(w, op) => Claimed(q, w, op)
    case WriteRow(id, row) => q.(db := SaveRow(q.db, id, row).0)
    case Finish(w, ok) => Finished(q, w, ok)
    case Abandon(w) => q.(claims := q.claims - {w})
    case Reboot => Rebooted(q)
  }

  ghost function Run(q: Machine, events: seq<Event>): Machine {
    if events == [] then q else Step(Run(q, events[..|events| - 1]), events[|events| - 1])
  }

  // ---- Worker exclusion ----

  /** Every claim is of a running operation, no operation is claimed twice, and the index is exact. */
  ghost predicate Exclusive(q: Machine) {
    && IndexOk(q.db)
    && (forall w :: w in q.claims ==> q.claims[w] in q.db.ops && q.db.ops[q.claims[w]].status == Running)
    && (forall v, w :: v in q.claims && w in q.claims && q.claims[v] == q.claims[w] ==> v == w)
  }

  /** What no database call may undo. */
  ghost predicate Grows(q: Machine, r: Machine) {
    && (forall o :: o in q.db.ops ==>
          && o in r.db.ops
          && r.db.ops[o].deployment == q.db.ops[o].deployment
          && r.db.ops[o].kind == q.db.ops[o].kind
          && (!IsActive(q.db.ops[o].status) ==> r.db.ops[o].status == q.db.ops[o].status))
    && (forall k :: k in q.db.keys ==> k in r.db.keys && r.db.keys[k] == q.db.keys[k])
  }

  /** What a call asks for: an operation on its deployment, of this kind, with this payload. */
  predicate Asks(call: Call, id: Id, kind: Kind, payload: Payload) {
    && id == call.id
    && match call
       case CreateCall(_, _, _, _, _, _, _, _, _) => kind == Create && payload == NoPayload
       case ActionCall(_, _, _, asked, carried) => kind == asked && payload == carried
       case PurgeCall(_, _, _, _) => kind == DeletePurge && payload == NoPayload
       case TokenCall(_, _, _) => false
  }

  predicate AsksFor(call: Call, o: Operation) {
    Asks(call, o.deployment, o.kind, o.payload)
  }

  /** One new operation is queued, which is what the call asks for, and the deployment has no other that is active. */
  predicate Queues(db: Db, call: Call, op: OpId, now: string, db': Db) {
    && op !in db.ops && call.id !in db.active
    && op in db'.ops && AsksFor(call, db'.ops[op]) && db'.ops[op].status == Queued && db'.ops[op].createdAt == now
    && db' == db.(ops := db.ops[op := db'.ops[op]], active := db.active[call.id := op])
  }

  /** A client's database call touches the operations only by queuing the one operation that it asks for, and answers with
      its number; it touches the stored responses only by adding its own under its key. */
  lemma PerformEffect(db: Db, call: Call, pc: ClientPc, draw: Draw, serials: map<TokenKey, nat>)
    ensures var (db', pc') := Perform(db, call, pc, draw, serials);
      && (if pc.Insert? && !call.TokenCall? && draw.op !in db.ops && call.id !in db.active then
            && Queues(db, call, draw.op, draw.now, db')
            && pc' == Remember(Accepted(draw.op, call.id, if call.CreateCall? then call.aliases else ""))
          else if pc.Insert? && !call.TokenCall? then db' == db && pc' == Answered(Rejected(Busy))
          else pc.Insert? || (db'.ops == db.ops && db'.active == db.active))
      && (if pc.Remember? && call.key !in db.keys then
            && db' == db.(keys := db.keys[call.key := Remembered(call.hash, pc.response)])
            && pc' == Answered(Fresh(pc.response))
          else db'.keys == db.keys)
  {
  }

  lemma InsertIs(db: Db, call: Call, pc: ClientPc, draw: Draw, serials: map<TokenKey, nat>)
    ensures var db' := Perform(db, call, pc, draw, serials).0;
      && (if pc.Insert? then db' == InsertOperation(db, draw.op, NewOperation(call, draw.now)).0
          else db'.ops == db.ops && db'.active == db.active)
      && (forall k :: k in db.keys ==> k in db'.keys && db'.keys[k] == db.keys[k])
  {
  }

  lemma ServeFrame(q: Machine, c: ClientId, draw: Draw)
    requires c in q.clients
    ensures var r := ServeClient(q, c, draw);
      && r.db == Perform(q.db, q.clients[c].call, q.clients[c].pc, draw, q.serials).0
      && r.claims == q.claims
  {
  }

  lemma InsertKeepsExclusive(q: Machine, r: Machine, op: OpId, o: Operation)
    requires Exclusive(q) && r.claims == q.claims
    requires r.db.ops == InsertOperation(q.db, op, o).0.ops && r.db.active == InsertOperation(q.db, op, o).0.active
    ensures Exclusive(r)
  {
    InsertKeepsIndex(q.db, op, o);
    assert IndexOk(r.db);
  }

  lemma ServeKeepsExclusive(q: Machine, c: ClientId, draw: Draw)
    requires Exclusive(q) && c in q.clients
    ensures Exclusive(ServeClient(q, c, draw))
    ensures Grows(q, ServeClient(q, c, draw))
  {
    var r, call, pc := ServeClient(q, c, draw), q.clients[c].call, q.clients[c].pc;
    ServeFrame(q, c, draw);
    InsertIs(q.db, call, pc, draw, q.serials);
    if pc.Insert? {
      InsertKeepsExclusive(q, r, draw.op, NewOperation(call, draw.now));
    }
  }

  /** Operation `op` has got its final status; nothing else of any operation has changed but payloads. */
  ghost predicate ClosedOps(db: Db, op: OpId, s: Status, db': Db) {
    && IndexOk(db')
    && op in db.ops
    && db'.ops.Keys == db.ops.Keys
    && db'.ops[op].status == s
    && db'.keys == db.keys
    && db'.active == db.active - (if IsActive(db.ops[op].status) then {db.ops[op].deployment} else {})
    && (forall o :: o in db.ops ==>
          && db'.ops[o].deployment == db.ops[o].deployment && db'.ops[o].kind == db.ops[o].kind
          && (o != op ==> db'.ops[o].status == db.ops[o].status))
  }

  /** Of any operation only the status, if it is the one, and the payload, if its deployment was purged, have changed. */
  ghost predicate KeptOps(db: Db, op: OpId, s: Status, purged: bool, db': Db)
    requires op in db.ops
  {
    && db'.ops.Keys == db.ops.Keys
    && forall o | o in db.ops :: db'.ops[o] == db.ops[o].(
         status := if o == op then s else db.ops[o].status,
         payload := if purged && db.ops[o].deployment == db.ops[op].deployment then NoPayload else db.ops[o].payload)
  }

  lemma PlainClose(db: Db, op: OpId, s: Status, db': Db)
    requires IndexOk(db) && op in db.ops && !IsActive(s) && db' == Store.Close(db, op, s)
    ensures ClosedOps(db, op, s, db') && db'.rows == db.rows && db'.tokens == db.tokens
    ensures KeptOps(db, op, s, false, db')
  {
    CloseKeepsIndex(db, op, s);
  }

  lemma PurgeClose(db: Db, op: OpId, id: Id, db': Db)
    requires IndexOk(db) && op in db.ops && db' == CompletePurge(db, op, id).0
    ensures ClosedOps(db, op, Succeeded, db') && db'.rows == db.rows - {id}
    ensures id == db.ops[op].deployment ==> KeptOps(db, op, Succeeded, true, db')
    ensures forall k :: k in db'.tokens <==> k in db.tokens && k.id != id
    ensures forall k :: k in db'.tokens ==> db'.tokens[k] == db.tokens[k]
  {
    PurgeKeepsIndex(db, op, id);
    hide IndexOk;
    assert db.ops[op].deployment in db.active && db.active[db.ops[op].deployment] == op <==> IsActive(db.ops[op].status) by {
      IndexTells(db, op);
    }
  }

  lemma IndexTells(db: Db, op: OpId)
    requires IndexOk(db) && op in db.ops
    ensures db.ops[op].deployment in db.active && db.active[db.ops[op].deployment] == op <==> IsActive(db.ops[op].status)
  {
  }

  /** Closing an operation changes its own status; a purge also drops the payloads of its deployment's operations, its
      tokens and its row. Nothing else of any operation changes. */
  lemma CloseEffect(db: Db, op: OpId, ok: bool)
    requires IndexOk(db) && op in db.ops
    ensures var db', id, purge := Close(db, op, ok), db.ops[op].deployment, ok && db.ops[op].kind == DeletePurge;
      && ClosedOps(db, op, if ok then Succeeded else Failure, db')
      && KeptOps(db, op, if ok then Succeeded else Failure, purge, db')
      && db'.rows == db.rows - (if purge then {id} else {})
      && (forall k :: k in db'.tokens <==> k in db.tokens && !(purge && k.id == id))
      && (forall k :: k in db'.tokens ==> db'.tokens[k] == db.tokens[k])
  {
    var db' := Close(db, op, ok);
    if !ok {
      assert db' == Store.Close(db, op, Failure);
      hide *;
      PlainClose(db, op, Failure, db');
    } else if db.ops[op].kind == DeletePurge {
      assert db' == CompletePurge(db, op, db.ops[op].deployment).0;
      hide *;
      PurgeClose(db, op, db.ops[op].deployment, db');
    } else {
      assert db' == Store.Close(db, op, Succeeded);
      hide *;
      PlainClose(db, op, Succeeded, db');
    }
  }

  lemma ClaimKeepsExclusive(q: Machine, w: WorkerId, op: OpId)
    requires Exclusive(q)
    ensures Exclusive(Claimed(q, w, op)) && Grows(q, Claimed(q, w, op))
  {
    if w !in q.claims && Claimable(q.db, op) {
      RunningKeepsIndex(q.db, op);
    }
  }

  lemma FinishKeepsExclusive(q: Machine, w: WorkerId, ok: bool)
    requires Exclusive(q)
    ensures Exclusive(Finished(q, w, ok)) && Grows(q, Finished(q, w, ok))
  {
    if w in q.claims {
      CloseEffect(q.db, q.claims[w], ok);
    }
  }

  lemma RebootKeepsExclusive(q: Machine)
    requires Exclusive(q)
    ensures Exclusive(Rebooted(q)) && Grows(q, Rebooted(q))
  {
    RequeueKeepsIndex(q.db);
  }

  /** After a restart nothing is running, and what was queued or running is queued. */
  lemma RebootRequeues(q: Machine)
    ensures var r := Rebooted(q);
      && r.db.ops.Keys == q.db.ops.Keys && r.claims == map[]
      && (forall o | o in r.db.ops ::
            && r.db.ops[o].status != Running
            && (r.db.ops[o].status == Queued <==> IsActive(q.db.ops[o].status))
            && r.db.ops[o] == q.db.ops[o].(status := r.db.ops[o].status))
  {
  }

  lemma StepKeepsExclusive(q: Machine, e: Event)
    requires Exclusive(q)
    ensures Exclusive(Step(q, e)) && Grows(q, Step(q, e))
  {
    match e
    case Serve(c, draw) =>
      if c in q.clients {
        ServeKeepsExclusive(q, c, draw);
      }
    case Claim(w, op) => ClaimKeepsExclusive(q, w, op);
    case Finish(w, ok) => FinishKeepsExclusive(q, w, ok);
    case Reboot => RebootKeepsExclusive(q);
    case _ =>
  }

  lemma {:induction false} RunKeepsExclusive(q: Machine, events: seq<Event>)
    requires Exclusive(q)
    ensures Exclusive(Run(q, events)) && Grows(q, Run(q, events))
  {
    if events != [] {
      var before := Run(q, events[..|events| - 1]);
      RunKeepsExclusive(q, events[..|events| - 1]);
      StepKeepsExclusive(before, events[|events| - 1]);
      GrowsOn(q, before, Run(q, events));
    }
  }

  lemma GrowsOn(q: Machine, r: Machine, s: Machine)
    requires Grows(q, r) && Grows(r, s)
    ensures Grows(q, s)
  {
  }

  lemma {:induction false} RunAppends(q: Machine, s: seq<Event>, t: seq<Event>)
    ensures Run(q, s + t) == Run(Run(q, s), t)
  {
    if t == [] {
      assert s + t == s;
    } else {
      var n := |t| - 1;
      RunAppends(q, s, t[..n]);
      assert (s + t)[..|s + t| - 1] == s + t[..n];
    }
  }

  /** In every run at most one operation of a deployment is queued or running, and two workers never hold
      the same operation nor operations of the same deployment. */
  lemma WorkerExclusion(events: seq<Event>)
    ensures var q := Run(Init, events);
      && (forall o, p | o in q.db.ops && p in q.db.ops && IsActive(q.db.ops[o].status) && IsActive(q.db.ops[p].status)
            :: q.db.ops[o].deployment == q.db.ops[p].deployment ==> o == p)
      && (forall v, w | v in q.claims && w in q.claims && v != w ::
            && q.claims[v] in q.db.ops && q.claims[w] in q.db.ops
            && q.claims[v] != q.claims[w]
            && q.db.ops[q.claims[v]].deployment != q.db.ops[q.claims[w]].deployment)
  {
    RunKeepsExclusive(Init, events);
  }

  // ---- Final statuses are final; stored responses never change ----

  /** `succeeded` and `failed` are absorbing, and a remembered response is never replaced, across any
      continuation of any run. */
  lemma FinalStatusesAreFinal(before: seq<Event>, after: seq<Event>)
    ensures Grows(Run(Init, before), Run(Init, before + after))
  {
    RunKeepsExclusive(Init, before);
    RunKeepsExclusive(Run(Init, before), after);
    RunAppends(Init, before, after);
  }
}

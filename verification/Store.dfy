/** The agent's SQLite state: what every statement does to the tables, as functions on a value. */
module Store {
  import opened Common
  import opened Lifecycle

  /** A create request. `settings` stands for every field the procedures only pass on. */
  datatype Request = Request(image: string, database: string, username: string, settings: string)

  /** `reference` is the credentials reference, without the deployment's id in it. */
  datatype Row = Row(
    request: Request,
    state: State,
    reference: string,
    secret: Option<string>,
    bootstrap: Option<string>,
    failedStep: string)

  datatype Kind = Create | Start | Stop | Restart | Upgrade | DeleteSoft | DeletePurge | AdminReset

  datatype Status = Queued | Running | Succeeded | Failure

  datatype Payload = NoPayload | UpgradeTo(image: string) | Sealed(cipher: string)

  datatype Operation = Operation(deployment: Id, kind: Kind, payload: Payload, status: Status, createdAt: string)

  /** SHA-256 of a text, taken as injective. */
  datatype Hash = Sha256(text: string)

  datatype TokenKey = TokenKey(id: Id, hash: Hash)

  datatype Token = Token(expires: string, consumed: bool)

  datatype Response = Accepted(op: OpId, id: Id, aliases: string) | TokenIssued(token: string, expires: string)

  datatype Remembered = Remembered(hash: Hash, response: Response)

  /** The tables. `active` is the partial unique index operations_one_active_per_deployment. */
  datatype Db = Db(
    rows: map<Id, Row>,
    ops: map<OpId, Operation>,
    active: map<Id, OpId>,
    tokens: map<TokenKey, Token>,
    keys: map<string, Remembered>)

  datatype Reply = Done | NotFound | Conflict | Invalid

  predicate IsActive(s: Status) {
    s == Queued || s == Running
  }

  /** The index holds exactly the queued and running operations, at most one a deployment. */
  ghost predicate IndexOk(db: Db) {
    && (forall id :: id in db.active ==>
          && db.active[id] in db.ops
          && db.ops[db.active[id]].deployment == id
          && IsActive(db.ops[db.active[id]].status))
    && (forall op :: op in db.ops && IsActive(db.ops[op].status) ==>
          db.ops[op].deployment in db.active && db.active[db.ops[op].deployment] == op)
  }

  const EmptyDb := Db(map[], map[], map[], map[], map[])

  function InsertRow(db: Db, id: Id, row: Row): (Db, Reply) {
    if id in db.rows then (db, Conflict) else (db.(rows := db.rows[id := row]), Done)
  }

  function SaveRow(db: Db, id: Id, row: Row): (Db, Reply) {
    if id !in db.rows then (db, NotFound) else (db.(rows := db.rows[id := row]), Done)
  }

  /** The transaction of UpdateState, seen from the one row it reads and writes. */
  function MoveRow(row: Option<Row>, to: State, step: string): (Option<Row>, Reply) {
    if row.None? then (row, NotFound)
    else if row.value.state != to && !CanTransition(row.value.state, to) then (row, Invalid)
    else (Some(row.value.(state := to, failedStep := step)), Done)
  }

  function RowOf(db: Db, id: Id): Option<Row> {
    if id in db.rows then Some(db.rows[id]) else None
  }

  /** Put a row back where RowOf found it; a missing row stays missing. */
  function WithRow(db: Db, id: Id, row: Option<Row>): Db {
    if row.Some? && id in db.rows then db.(rows := db.rows[id := row.value]) else db
  }

  function UpdateState(db: Db, id: Id, to: State, step: string): (Db, Reply) {
    var (row, reply) := MoveRow(RowOf(db, id), to, step);
    (WithRow(db, id, row), reply)
  }

  /** INSERT of a queued operation; refused by the primary key or by the partial unique index. */
  function InsertOperation(db: Db, op: OpId, o: Operation): (Db, Reply) {
    if op in db.ops || o.deployment in db.active then (db, Conflict)
    else
      (db.(ops := db.ops[op := o.(status := Queued)], active := db.active[o.deployment := op]), Done)
  }

  /** `op` may head SELECT ... WHERE status='queued' ORDER BY created_at LIMIT 1. */
  ghost predicate Claimable(db: Db, op: OpId) {
    && op in db.ops && db.ops[op].status == Queued
    && forall o :: o in db.ops && db.ops[o].status == Queued ==>
         !LexLess(db.ops[o].createdAt, db.ops[op].createdAt)
  }

  function MarkRunning(db: Db, op: OpId): Db
    requires op in db.ops
  {
    db.(ops := db.ops[op := db.ops[op].(status := Running)])
  }

  /** Gives the operation a final status, which takes it out of the partial index. */
  function Close(db: Db, op: OpId, s: Status): Db
    requires op in db.ops && !IsActive(s)
  {
    var id := db.ops[op].deployment;
    db.(ops := db.ops[op := db.ops[op].(status := s)],
        active := if id in db.active && db.active[id] == op then db.active - {id} else db.active)
  }

  function CompleteOperation(db: Db, op: OpId): (Db, Reply) {
    if op !in db.ops then (db, NotFound) else (Close(db, op, Succeeded), Done)
  }

  function FailOperation(db: Db, op: OpId): Db {
    if op !in db.ops then db else Close(db, op, Failure)
  }

  /** The deployment's payloads, tokens and row are gone. */
  function Purged(db: Db, id: Id): Db {
    db.(
      ops := map o | o in db.ops ::
        (if db.ops[o].deployment == id then db.ops[o].(payload := NoPayload) else db.ops[o]),
      tokens := map k | k in db.tokens && k.id != id :: db.tokens[k],
      rows := db.rows - {id})
  }

  /** One transaction: purge, and mark the operation succeeded. */
  function CompletePurge(db: Db, op: OpId, id: Id): (Db, Reply) {
    if op !in db.ops then (db, NotFound) else (Close(Purged(db, id), op, Succeeded), Done)
  }

  /** What opening the database does first: every running operation goes back to the queue. */
  function Requeue(db: Db): Db {
    db.(ops := map o | o in db.ops ::
      (if db.ops[o].status == Running then db.ops[o].(status := Queued) else db.ops[o]))
  }

  function PutKey(db: Db, key: string, entry: Remembered): (Db, Reply) {
    if key in db.keys then (db, Conflict) else (db.(keys := db.keys[key := entry]), Done)
  }

  function IssueToken(db: Db, key: TokenKey, expires: string): (Db, Reply) {
    if key in db.tokens then (db, Conflict)
    else (db.(tokens := db.tokens[key := Token(expires, false)]), Done)
  }

  /** UPDATE ... WHERE consumed_at IS NULL AND expires_at > now, comparing the two texts. */
  predicate Spendable(db: Db, key: TokenKey, now: string) {
    key in db.tokens && !db.tokens[key].consumed && LexLess(now, db.tokens[key].expires)
  }

  function SpendToken(db: Db, key: TokenKey, now: string): (Db, bool) {
    if Spendable(db, key, now) then
      (db.(tokens := db.tokens[key := db.tokens[key].(consumed := true)]), true)
    else (db, false)
  }

  const REFERENCE := "cccred://deployment/postgres"

  function Counted(db: Db): set<Id> {
    set id | id in db.rows && db.rows[id].reference != ""
  }

  /** SELECT count(*) FROM deployments WHERE credentials_ref <> ''. */
  function CountRows(db: Db): nat {
    |Counted(db)|
  }

  lemma FewerKeys(small: set<Id>, large: set<Id>)
    requires small <= large
    ensures |small| <= |large|
  {
    if small != large {
      assert large == small + (large - small);
    }
  }

  lemma CountsAtMostAll(db: Db)
    ensures CountRows(db) <= |db.rows|
  {
    assert |db.rows| == |db.rows.Keys|;
    FewerKeys(Counted(db), db.rows.Keys);
  }

  lemma InsertKeepsIndex(db: Db, op: OpId, o: Operation)
    requires IndexOk(db)
    ensures IndexOk(InsertOperation(db, op, o).0)
  {
  }

  lemma CloseKeepsIndex(db: Db, op: OpId, s: Status)
    requires IndexOk(db) && op in db.ops && !IsActive(s)
    ensures IndexOk(Close(db, op, s))
  {
  }

  lemma RunningKeepsIndex(db: Db, op: OpId)
    requires IndexOk(db) && op in db.ops && IsActive(db.ops[op].status)
    ensures IndexOk(MarkRunning(db, op))
  {
  }

  lemma PurgedKeepsIndex(db: Db, id: Id)
    requires IndexOk(db)
    ensures IndexOk(Purged(db, id))
  {
  }

  lemma PurgeKeepsIndex(db: Db, op: OpId, id: Id)
    requires IndexOk(db)
    ensures IndexOk(CompletePurge(db, op, id).0)
  {
    PurgedKeepsIndex(db, id);
    if op in db.ops {
      CloseKeepsIndex(Purged(db, id), op, Succeeded);
    }
  }

  lemma RequeueKeepsIndex(db: Db)
    requires IndexOk(db)
    ensures IndexOk(Requeue(db))
  {
  }
}

/** The repository: tables in fields, one method a database call. Each method is one statement or one transaction,
    and does what the function of the same purpose in the module Store says. */
module Sqlite {
  import opened Common
  import opened Lifecycle
  import opened Store

  class Repository {
    var rows: map<Id, Row>
    var ops: map<OpId, Operation>
    var active: map<Id, OpId>
    var tokens: map<TokenKey, Token>
    var keys: map<string, Remembered>

    function Contents(): Db
      reads this
    {
      Db(rows, ops, active, tokens, keys)
    }

    ghost predicate Valid()
      reads this
    {
      IndexOk(Contents())
    }

    /** Opening requeues every running operation. */
    constructor (db: Db)
      requires IndexOk(db)
      ensures Valid() && Contents() == Requeue(db)
    {
      rows, ops, active, tokens, keys := db.rows, db.ops, db.active, db.tokens, db.keys;
      new;
      RequeueRunning();
      RequeueKeepsIndex(db);
    }

    /** UPDATE operations SET status = 'queued' WHERE status = 'running'. */
    method RequeueRunning()
      modifies this`ops
      ensures ops == map o | o in old(ops) :: (if old(ops)[o].status == Running then old(ops)[o].(status := Queued) else old(ops)[o])
    {
      var left := ops.Keys;
      while left != {}
        invariant left <= ops.Keys == old(ops).Keys
        invariant forall o | o in ops ::
          ops[o] == if o !in left && old(ops)[o].status == Running then old(ops)[o].(status := Queued) else old(ops)[o]
        decreases |left|
      {
        var o :| o in left;
        if ops[o].status == Running {
          ops := ops[o := ops[o].(status := Queued)];
        }
        left := left - {o};
      }
    }

    method CreateDeployment(id: Id, row: Row) returns (reply: Reply)
      requires Valid()
      modifies this`rows
      ensures Valid() && (Contents(), reply) == InsertRow(old(Contents()), id, row)
      ensures if id in old(rows) then reply == Conflict && rows == old(rows) else reply == Done && rows == old(rows)[id := row]
    {
      if id in rows {
        return Conflict;
      }
      rows := rows[id := row];
      return Done;
    }

    method SaveDeployment(id: Id, row: Row) returns (reply: Reply)
      requires Valid()
      modifies this`rows
      ensures Valid() && (Contents(), reply) == SaveRow(old(Contents()), id, row)
      ensures if id in old(rows) then reply == Done && rows == old(rows)[id := row] else reply == NotFound && rows == old(rows)
    {
      if id !in rows {
        return NotFound;
      }
      rows := rows[id := row];
      return Done;
    }

    method GetDeployment(id: Id) returns (row: Option<Row>)
      ensures row == RowOf(Contents(), id)
    {
      row := if id in rows then Some(rows[id]) else None;
    }

    /** Counts the deployments that have credentials. */
    method CountDeployments() returns (n: nat)
      ensures n == CountRows(Contents())
    {
      n := 0;
      var left := rows.Keys;
      assert (set id | id in rows && id !in left && rows[id].reference != "") == {};
      while left != {}
        invariant left <= rows.Keys
        invariant n == |set id | id in rows && id !in left && rows[id].reference != ""|
        decreases |left|
      {
        var k :| k in left;
        ghost var seen := set id | id in rows && id !in left && rows[id].reference != "";
        left := left - {k};
        if rows[k].reference != "" {
          assert (set id | id in rows && id !in left && rows[id].reference != "") == seen + {k};
          n := n + 1;
        } else {
          assert (set id | id in rows && id !in left && rows[id].reference != "") == seen;
        }
      }
      assert (set id | id in rows && id !in left && rows[id].reference != "") == Counted(Contents());
    }

    /** The transaction reads the state, checks the table and writes state and failed step. */
    method UpdateState(id: Id, to: State, failedStep: string) returns (reply: Reply)
      requires Valid()
      modifies this`rows
      ensures Valid() && (Contents(), reply) == Store.UpdateState(old(Contents()), id, to, failedStep)
      ensures reply ==
        if id !in old(rows) then NotFound
        else if old(rows)[id].state == to || CanTransition(old(rows)[id].state, to) then Done
        else Invalid
      ensures rows == if reply == Done then old(rows)[id := old(rows)[id].(state := to, failedStep := failedStep)] else old(rows)
    {
      if id !in rows {
        return NotFound;
      }
      var from := rows[id].state;
      if from != to && !CanTransition(from, to) {
        assert rows[id := rows[id]] == rows;
        return Invalid;
      }
      rows := rows[id := rows[id].(state := to, failedStep := failedStep)];
      return Done;
    }

    method CreateOperation(op: OpId, o: Operation) returns (reply: Reply)
      requires Valid()
      modifies this`ops, this`active
      ensures Valid() && (Contents(), reply) == InsertOperation(old(Contents()), op, o)
      ensures if op in old(ops) || o.deployment in old(active) then reply == Conflict && ops == old(ops) && active == old(active)
              else reply == Done && ops == old(ops)[op := o.(status := Queued)] && active == old(active)[o.deployment := op]
    {
      InsertKeepsIndex(Contents(), op, o);
      if op in ops || o.deployment in active {
        return Conflict;
      }
      ops := ops[op := o.(status := Queued)];
      active := active[o.deployment := op];
      return Done;
    }

    /** Takes a queued operation with the least creation text, if there is any, and marks it running. */
    method ClaimOperation() returns (claimed: Option<OpId>)
      requires Valid()
      modifies this`ops
      ensures Valid()
      ensures claimed.None? ==> Contents() == old(Contents()) && forall o | o in ops :: ops[o].status != Queued
      ensures claimed.Some? ==> Claimable(old(Contents()), claimed.value) && Contents() == MarkRunning(old(Contents()), claimed.value)
      ensures claimed.Some? ==>
        && claimed.value in old(ops) && old(ops)[claimed.value].status == Queued
        && ops == old(ops)[claimed.value := old(ops)[claimed.value].(status := Running)]
        && forall o | o in old(ops) && old(ops)[o].status == Queued :: !LexLess(old(ops)[o].createdAt, old(ops)[claimed.value].createdAt)
    {
      claimed := None;
      var left := ops.Keys;
      while left != {}
        invariant ops == old(ops) && left <= ops.Keys
        invariant claimed.None? ==> forall o | o in ops && o !in left :: ops[o].status != Queued
        invariant claimed.Some? ==> claimed.value in ops && ops[claimed.value].status == Queued
        invariant claimed.Some? ==> forall o | o in ops && o !in left && ops[o].status == Queued ::
          !LexLess(ops[o].createdAt, ops[claimed.value].createdAt)
        decreases |left|
      {
        var o :| o in left;
        if ops[o].status == Queued && (claimed.None? || LexLess(ops[o].createdAt, ops[claimed.value].createdAt)) {
          LeastSoFar(ops, left, claimed, o);
          claimed := Some(o);
        }
        left := left - {o};
      }
      if claimed.Some? {
        RunningKeepsIndex(Contents(), claimed.value);
        ops := ops[claimed.value := ops[claimed.value].(status := Running)];
      }
    }

    /** UPDATE operations SET status = s: the row leaves the partial index. */
    method SetFinalStatus(op: OpId, s: Status)
      requires Valid() && op in ops && !IsActive(s)
      modifies this`ops, this`active
      ensures Valid() && Contents() == Store.Close(old(Contents()), op, s)
      ensures ops == old(ops)[op := old(ops)[op].(status := s)]
      ensures active == old(active) - (if IsActive(old(ops)[op].status) then {old(ops)[op].deployment} else {})
    {
      CloseKeepsIndex(Contents(), op, s);
      var id := ops[op].deployment;
      if id in active && active[id] == op {
        active := active - {id};
      }
      ops := ops[op := ops[op].(status := s)];
    }

    method CompleteOperation(op: OpId) returns (reply: Reply)
      requires Valid()
      modifies this`ops, this`active
      ensures Valid() && (Contents(), reply) == Store.CompleteOperation(old(Contents()), op)
      ensures if op in old(ops) then reply == Done && ops == old(ops)[op := old(ops)[op].(status := Succeeded)]
              else reply == NotFound && ops == old(ops) && active == old(active)
    {
      if op !in ops {
        return NotFound;
      }
      SetFinalStatus(op, Succeeded);
      return Done;
    }

    method FailOperation(op: OpId)
      requires Valid()
      modifies this`ops, this`active
      ensures Valid() && Contents() == Store.FailOperation(old(Contents()), op)
      ensures ops == if op in old(ops) then old(ops)[op := old(ops)[op].(status := Failure)] else old(ops)
    {
      if op in ops {
        SetFinalStatus(op, Failure);
      }
    }

    /** Three deletions and an update in one transaction, rolled back when the operation is missing. */
    method CompletePurge(op: OpId, id: Id) returns (reply: Reply)
      requires Valid()
      modifies this
      ensures Valid() && (Contents(), reply) == Store.CompletePurge(old(Contents()), op, id)
      ensures reply == if op in old(ops) then Done else NotFound
      ensures if reply == Done then id !in rows && forall k | k in tokens :: k.id != id
              else rows == old(rows) && ops == old(ops) && tokens == old(tokens) && active == old(active)
    {
      var before := (rows, ops, tokens);
      ForgetPayloads(id);
      tokens := map k | k in tokens && k.id != id :: tokens[k];
      rows := rows - {id};
      if op !in ops {
        rows, ops, tokens := before.0, before.1, before.2;
        return NotFound;
      }
      assert Contents() == Purged(old(Contents()), id);
      PurgedKeepsIndex(old(Contents()), id);
      SetFinalStatus(op, Succeeded);
      return Done;
    }

    /** UPDATE operations SET payload = NULL WHERE deployment_id = id. */
    method ForgetPayloads(id: Id)
      modifies this`ops
      ensures ops == map o | o in old(ops) :: (if old(ops)[o].deployment == id then old(ops)[o].(payload := NoPayload) else old(ops)[o])
    {
      var left := ops.Keys;
      while left != {}
        invariant left <= ops.Keys == old(ops).Keys
        invariant forall o | o in ops ::
          ops[o] == if o !in left && old(ops)[o].deployment == id then old(ops)[o].(payload := NoPayload) else old(ops)[o]
        decreases |left|
      {
        var o :| o in left;
        if ops[o].deployment == id {
          ops := ops[o := ops[o].(payload := NoPayload)];
        }
        left := left - {o};
      }
    }

    method GetIdempotency(key: string) returns (entry: Option<Remembered>)
      ensures entry == if key in Contents().keys then Some(Contents().keys[key]) else None
    {
      entry := if key in keys then Some(keys[key]) else None;
    }

    method PutIdempotency(key: string, entry: Remembered) returns (reply: Reply)
      requires Valid()
      modifies this`keys
      ensures Valid() && (Contents(), reply) == PutKey(old(Contents()), key, entry)
      ensures if key in old(keys) then reply == Conflict && keys == old(keys) else reply == Done && keys == old(keys)[key := entry]
    {
      if key in keys {
        return Conflict;
      }
      keys := keys[key := entry];
      return Done;
    }

    method CreatePurgeToken(key: TokenKey, expires: string) returns (reply: Reply)
      requires Valid()
      modifies this`tokens
      ensures Valid() && (Contents(), reply) == IssueToken(old(Contents()), key, expires)
      ensures if key in old(tokens) then reply == Conflict && tokens == old(tokens)
              else reply == Done && tokens == old(tokens)[key := Token(expires, false)]
    {
      if key in tokens {
        return Conflict;
      }
      tokens := tokens[key := Token(expires, false)];
      return Done;
    }

    method ConsumePurgeToken(key: TokenKey, now: string) returns (spent: bool)
      requires Valid()
      modifies this`tokens
      ensures Valid() && (Contents(), spent) == SpendToken(old(Contents()), key, now)
      ensures spent <==> key in old(tokens) && !old(tokens)[key].consumed && LexLess(now, old(tokens)[key].expires)
      ensures tokens == if spent then old(tokens)[key := Token(old(tokens)[key].expires, true)] else old(tokens)
    {
      spent := key in tokens && !tokens[key].consumed && LexLess(now, tokens[key].expires);
      if spent {
        tokens := tokens[key := tokens[key].(consumed := true)];
      }
    }
  }

  /** A smaller candidate is no greater than anything already passed. */
  lemma LeastSoFar(ops: map<OpId, Operation>, left: set<OpId>, best: Option<OpId>, o: OpId)
    requires o in ops
    requires best.Some? ==> best.value in ops && LexLess(ops[o].createdAt, ops[best.value].createdAt)
    requires best.Some? ==> forall p | p in ops && p !in left && ops[p].status == Queued ::
      !LexLess(ops[p].createdAt, ops[best.value].createdAt)
    requires best.None? ==> forall p | p in ops && p !in left :: ops[p].status != Queued
    ensures forall p | p in ops && (p !in left || p == o) && ops[p].status == Queued :: !LexLess(ops[p].createdAt, ops[o].createdAt)
  {
    LexLessIrreflexive(ops[o].createdAt);
    if best.Some? {
      forall p | p in ops && p !in left && LexLess(ops[p].createdAt, ops[o].createdAt)
        ensures LexLess(ops[p].createdAt, ops[best.value].createdAt)
      {
        LexLessTransitive(ops[p].createdAt, ops[o].createdAt, ops[best.value].createdAt);
      }
    }
  }
}

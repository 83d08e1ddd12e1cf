/** What each API call answers and does to the tables when nothing runs beside it: the conditions under which it is
    accepted, in the order in which they are judged, and everything it then changes. */
module Decisions {
  import opened Common
  import opened Lifecycle
  import opened Store
  import opened Queue
  import Service
  import Submission

  /** A new operation can be queued. */
  predicate Room(db: Db, call: Call, draw: Draw) {
    draw.op !in db.ops && call.id !in db.active
  }

  /** What a call that queues something makes of the tables `db` it has come to: the operation it asks for and the
      response under its key, or nothing. */
  predicate Concludes(db: Db, call: Call, draw: Draw, db': Db, answer: Answer) {
    if Room(db, call, draw) then
      var response := Accepted(draw.op, call.id, if call.CreateCall? then call.aliases else "");
      && Queues(db, call, draw.op, draw.now, db'.(keys := db.keys))
      && db'.keys == db.keys[call.key := Remembered(call.hash, response)]
      && answer == Fresh(response)
    else db' == db && answer == Rejected(Busy)
  }

  /** A key that is known decides alone: the same request gets the stored response, another one is refused. */
  predicate KnownKey(db: Db, call: Call, db': Db, answer: Answer)
    requires call.key in db.keys
  {
    && db' == db
    && answer == if db.keys[call.key].hash == call.hash then Replayed(db.keys[call.key].response) else Rejected(KeyReused)
  }

  ghost predicate CreateDecision(db: Db, call: Call, draw: Draw, db': Db, answer: Answer)
    requires call.CreateCall?
  {
    if call.key in db.keys then KnownKey(db, call, db', answer)
    else if call.id !in db.rows && (CountRows(db) >= call.limit || !call.memoryOk) then db' == db && answer == Rejected(Capacity)
    else if call.id in db.rows && db.rows[call.id].state != Failed && db.rows[call.id].state != Deleted then
      db' == db && answer == Rejected(Busy)
    else
      var between := db.(rows := db'.rows);
      Submission.RowWritten(db, between, call) && Concludes(between, call, draw, db', answer)
  }

  predicate ActionDecision(db: Db, call: Call, draw: Draw, db': Db, answer: Answer) {
    if call.key in db.keys then KnownKey(db, call, db', answer)
    else if call.id !in db.rows then db' == db && answer == Rejected(NoDeployment)
    else Concludes(db, call, draw, db', answer)
  }

  predicate TokenDecision(db: Db, call: Call, draw: Draw, db': Db, answer: Answer) {
    var k, response := TokenKey(call.id, Sha256(draw.token)), TokenIssued(draw.token, draw.expires);
    if call.key in db.keys then KnownKey(db, call, db', answer)
    else if call.id !in db.rows then db' == db && answer == Rejected(NoDeployment)
    else if k in db.tokens then db' == db && answer == Rejected(Busy)
    else
      && db' == db.(tokens := db.tokens[k := Token(draw.expires, false)], keys := db.keys[call.key := Remembered(call.hash, response)])
      && answer == Fresh(response)
  }

  /** The token is spent before the operation is queued, and stays spent when it cannot be. */
  predicate PurgeDecision(db: Db, call: Call, draw: Draw, db': Db, answer: Answer)
    requires call.PurgeCall?
  {
    var k := TokenKey(call.id, Sha256(call.token));
    if call.key in db.keys then KnownKey(db, call, db', answer)
    else if k !in db.tokens || db.tokens[k].consumed || !LexLess(draw.now, db.tokens[k].expires) then
      db' == db && answer == Rejected(BadToken)
    else Concludes(db.(tokens := db.tokens[k := Token(db.tokens[k].expires, true)]), call, draw, db', answer)
  }

  // ---- The calls decide so ----

  lemma InsertConcludes(db: Db, call: Call, serial: Option<nat>, draw: Draw, serials: map<TokenKey, nat>, n: nat) returns (db': Db, answer: Answer)
    requires !call.TokenCall? && call.key !in db.keys
    ensures Service.ServedTimes(db, call, Insert(serial), draw, serials, n + 2) == (db', Answered(answer))
    ensures Concludes(db, call, draw, db', answer)
  {
    hide Service.ServedTimes;
    PerformEffect(db, call, Insert(serial), draw, serials);
    var p := Perform(db, call, Insert(serial), draw, serials);
    Service.Turn(db, call, Insert(serial), draw, serials, n + 1, p.0, p.1);
    if Room(db, call, draw) {
      PerformEffect(p.0, call, p.1, draw, serials);
      var q := Perform(p.0, call, p.1, draw, serials);
      Service.Turn(p.0, call, p.1, draw, serials, n, q.0, q.1);
      answer := q.1.answer;
      Service.Over(q.0, call, answer, draw, serials, n);
      db' := q.0;
    } else {
      db', answer := p.0, p.1.answer;
      Service.Over(db', call, answer, draw, serials, n + 1);
    }
  }

  lemma LookUpDecides(db: Db, call: Call, draw: Draw, serials: map<TokenKey, nat>)
    ensures if call.key in db.keys then
              exists answer :: Service.Outcome(db, call, draw, serials) == (db, Answered(answer)) && KnownKey(db, call, db, answer)
            else
              Service.Outcome(db, call, draw, serials) ==
                Service.ServedTimes(db, call, if call.PurgeCall? then Spend else Inspect, draw, serials, 5)
  {
    hide Service.ServedTimes;
    if call.key in db.keys {
      var answer := if db.keys[call.key].hash == call.hash then Replayed(db.keys[call.key].response) else Rejected(KeyReused);
      Service.Turn(db, call, LookUp, draw, serials, 5, db, Answered(answer));
      Service.Over(db, call, answer, draw, serials, 5);
      assert KnownKey(db, call, db, answer);
    } else {
      Service.Turn(db, call, LookUp, draw, serials, 5, db, if call.PurgeCall? then Spend else Inspect);
    }
  }

  /** A create is accepted exactly when its key is new, its deployment failed, deleted or unknown to a node with room, and
      no operation of it is active; its row is then the one that was sent. */
  lemma CreateIsDecided(db: Db, call: Call, draw: Draw, serials: map<TokenKey, nat>)
    requires call.CreateCall?
    ensures exists db', answer ::
      Service.Outcome(db, call, draw, serials) == (db', Answered(answer)) && CreateDecision(db, call, draw, db', answer)
  {
    hide Service.ServedTimes, KnownKey, Concludes, Service.Outcome;
    LookUpDecides(db, call, draw, serials);
    if call.key in db.keys {
    } else if call.id !in db.rows {
      Service.Turn(db, call, Inspect, draw, serials, 4, db, Count);
      if CountRows(db) >= call.limit || !call.memoryOk {
        Service.Turn(db, call, Count, draw, serials, 3, db, Answered(Rejected(Capacity)));
        Service.Over(db, call, Rejected(Capacity), draw, serials, 3);
      } else {
        var between := db.(rows := db.rows[call.id := NewRow(call)]);
        Service.Turn(db, call, Count, draw, serials, 3, db, AddRow);
        Service.Turn(db, call, AddRow, draw, serials, 2, between, Insert(None));
        var db', answer := InsertConcludes(between, call, None, draw, serials, 0);
        RowsKept(between, call, draw, db', answer);
      }
    } else if db.rows[call.id].state != Failed && db.rows[call.id].state != Deleted {
      Service.Turn(db, call, Inspect, draw, serials, 4, db, Answered(Rejected(Busy)));
      Service.Over(db, call, Rejected(Busy), draw, serials, 4);
    } else {
      var prior := db.rows[call.id];
      var between := db.(rows := db.rows[call.id := RenewedRow(prior, call)]);
      Service.Turn(db, call, Inspect, draw, serials, 4, db, RenewRow(prior));
      Service.Turn(db, call, RenewRow(prior), draw, serials, 3, between, Insert(None));
      var db', answer := InsertConcludes(between, call, None, draw, serials, 1);
      RowsKept(between, call, draw, db', answer);
    }
  }

  lemma RowsKept(db: Db, call: Call, draw: Draw, db': Db, answer: Answer)
    requires Concludes(db, call, draw, db', answer)
    ensures db'.rows == db.rows
  {
  }

  /** Any other call that queues something needs the row, which it does not touch, and no active operation. */
  lemma ActionIsDecided(db: Db, call: Call, draw: Draw, serials: map<TokenKey, nat>)
    requires call.ActionCall?
    ensures exists db', answer ::
      Service.Outcome(db, call, draw, serials) == (db', Answered(answer)) && ActionDecision(db, call, draw, db', answer)
  {
    hide Service.ServedTimes, KnownKey, Concludes, Service.Outcome;
    LookUpDecides(db, call, draw, serials);
    if call.key in db.keys {
    } else if call.id !in db.rows {
      Service.Turn(db, call, Inspect, draw, serials, 4, db, Answered(Rejected(NoDeployment)));
      Service.Over(db, call, Rejected(NoDeployment), draw, serials, 4);
    } else {
      Service.Turn(db, call, Inspect, draw, serials, 4, db, Insert(None));
      var db', answer := InsertConcludes(db, call, None, draw, serials, 2);
    }
  }

  /** A token is issued for a deployment the node knows, and its text is answered once. */
  lemma TokenIsDecided(db: Db, call: Call, draw: Draw, serials: map<TokenKey, nat>)
    requires call.TokenCall?
    ensures exists db', answer ::
      Service.Outcome(db, call, draw, serials) == (db', Answered(answer)) && TokenDecision(db, call, draw, db', answer)
  {
    hide Service.ServedTimes, KnownKey, Service.Outcome;
    LookUpDecides(db, call, draw, serials);
    var k, response := TokenKey(call.id, Sha256(draw.token)), TokenIssued(draw.token, draw.expires);
    if call.key in db.keys {
    } else if call.id !in db.rows {
      Service.Turn(db, call, Inspect, draw, serials, 4, db, Answered(Rejected(NoDeployment)));
      Service.Over(db, call, Rejected(NoDeployment), draw, serials, 4);
    } else {
      Service.Turn(db, call, Inspect, draw, serials, 4, db, Issue);
      if k in db.tokens {
        Service.Turn(db, call, Issue, draw, serials, 3, db, Answered(Rejected(Busy)));
        Service.Over(db, call, Rejected(Busy), draw, serials, 3);
      } else {
        var issued := db.(tokens := db.tokens[k := Token(draw.expires, false)]);
        var last := issued.(keys := issued.keys[call.key := Remembered(call.hash, response)]);
        Service.Turn(db, call, Issue, draw, serials, 3, issued, ClientPc.Remember(response));
        Service.Turn(issued, call, ClientPc.Remember(response), draw, serials, 2, last, Answered(Fresh(response)));
        Service.Over(last, call, Fresh(response), draw, serials, 2);
      }
    }
  }

  /** A purge is accepted exactly when its key is new, its token is one of the deployment's, unspent and, as a text, not
      expired, and no operation is active. */
  lemma PurgeIsDecided(db: Db, call: Call, draw: Draw, serials: map<TokenKey, nat>)
    requires call.PurgeCall? && forall k | k in db.tokens :: k in serials
    ensures exists db', answer ::
      Service.Outcome(db, call, draw, serials) == (db', Answered(answer)) && PurgeDecision(db, call, draw, db', answer)
  {
    hide Service.ServedTimes, KnownKey, Concludes, Service.Outcome;
    LookUpDecides(db, call, draw, serials);
    var k := TokenKey(call.id, Sha256(call.token));
    if call.key in db.keys {
    } else if k !in db.tokens || db.tokens[k].consumed || !LexLess(draw.now, db.tokens[k].expires) {
      Service.Turn(db, call, Spend, draw, serials, 4, db, Answered(Rejected(BadToken)));
      Service.Over(db, call, Rejected(BadToken), draw, serials, 4);
    } else {
      var spent := db.(tokens := db.tokens[k := Token(db.tokens[k].expires, true)]);
      Service.Turn(db, call, Spend, draw, serials, 4, spent, Insert(Some(serials[k])));
      var db', answer := InsertConcludes(spent, call, Some(serials[k]), draw, serials, 2);
    }
  }
}

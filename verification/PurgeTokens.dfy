/** Every purge ever queued was paid for with its own token, whatever the interleaving and the crashes. */
module PurgeTokens {
  import opened Common
  import opened Store
  import opened Queue

  /** An issuance, by its position in the history, and the deployment it was issued for. */
  datatype Slip = Slip(id: Id, serial: nat)

  /** Where every issuance stands: still loose as an unconsumed row, held by a client that has spent it,
      or used up by a queued purge. */
  datatype Ledger = Ledger(
    issued: seq<Id>,
    loose: map<TokenKey, Slip>,
    held: map<ClientId, Slip>,
    used: map<OpId, Slip>)

  predicate Genuine(issued: seq<Id>, s: Slip) {
    s.serial < |issued| && issued[s.serial] == s.id
  }

  ghost predicate Sound(l: Ledger) {
    && (forall k :: k in l.loose ==> Genuine(l.issued, l.loose[k]))
    && (forall c :: c in l.held ==> Genuine(l.issued, l.held[c]))
    && (forall o :: o in l.used ==> Genuine(l.issued, l.used[o]))
    && (forall k, m :: k in l.loose && m in l.loose && k != m ==> l.loose[k].serial != l.loose[m].serial)
    && (forall c, d :: c in l.held && d in l.held && c != d ==> l.held[c].serial != l.held[d].serial)
    && (forall o, p :: o in l.used && p in l.used && o != p ==> l.used[o].serial != l.used[p].serial)
    && (forall k, c :: k in l.loose && c in l.held ==> l.loose[k].serial != l.held[c].serial)
    && (forall k, o :: k in l.loose && o in l.used ==> l.loose[k].serial != l.used[o].serial)
    && (forall c, o :: c in l.held && o in l.used ==> l.held[c].serial != l.used[o].serial)
  }

  function Issued(l: Ledger, k: TokenKey): Ledger {
    l.(issued := l.issued + [k.id], loose := l.loose[k := Slip(k.id, |l.issued|)])
  }

  function Spent(l: Ledger, k: TokenKey, c: ClientId): Ledger
    requires k in l.loose
  {
    l.(loose := l.loose - {k}, held := l.held[c := l.loose[k]])
  }

  function Used(l: Ledger, c: ClientId, op: OpId): Ledger
    requires c in l.held
  {
    l.(held := l.held - {c}, used := l.used[op := l.held[c]])
  }

  lemma IssuedSound(l: Ledger, k: TokenKey)
    requires Sound(l) && k !in l.loose
    ensures Sound(Issued(l, k))
  {
    var m := Issued(l, k);
    forall s: Slip | Genuine(l.issued, s) ensures Genuine(m.issued, s) {}
    assert Genuine(m.issued, m.loose[k]);
  }

  lemma SpentSound(l: Ledger, k: TokenKey, c: ClientId)
    requires Sound(l) && k in l.loose && c !in l.held
    ensures Sound(Spent(l, k, c))
  {
  }

  lemma UsedSound(l: Ledger, c: ClientId, op: OpId)
    requires Sound(l) && c in l.held && op !in l.used
    ensures Sound(Used(l, c, op))
  {
  }

  /** Dropping loose tokens and clients keeps the ledger sound. */
  lemma ShrinkSound(l: Ledger, m: Ledger)
    requires Sound(l) && m.issued == l.issued && m.used == l.used
    requires forall k :: k in m.loose ==> k in l.loose && m.loose[k] == l.loose[k]
    requires forall c :: c in m.held ==> c in l.held && m.held[c] == l.held[c]
    ensures Sound(m)
  {
  }

  function LooseOf(tokens: map<TokenKey, Token>, serials: map<TokenKey, nat>): map<TokenKey, Slip> {
    map k | k in tokens && !tokens[k].consumed && k in serials :: Slip(k.id, serials[k])
  }

  predicate Holder(client: Client) {
    client.pc.Insert? && client.pc.serial.Some?
  }

  function HeldOf(clients: map<ClientId, Client>): map<ClientId, Slip> {
    map c | c in clients && Holder(clients[c]) :: Slip(clients[c].call.id, clients[c].pc.serial.value)
  }

  function UsedOf(grants: map<OpId, nat>, ops: map<OpId, Operation>): map<OpId, Slip> {
    map o | o in grants && o in ops :: Slip(ops[o].deployment, grants[o])
  }

  function LedgerOf(q: Queue.Machine): Ledger {
    Ledger(q.issued, LooseOf(q.db.tokens, q.serials), HeldOf(q.clients), UsedOf(q.grants, q.db.ops))
  }

  lemma HeldMoves(clients: map<ClientId, Client>, c: ClientId, client: Client)
    ensures HeldOf(clients[c := client]) ==
      if Holder(client) then HeldOf(clients)[c := Slip(client.call.id, client.pc.serial.value)]
      else HeldOf(clients) - {c}
  {
  }

  lemma LooseIssued(tokens: map<TokenKey, Token>, serials: map<TokenKey, nat>, k: TokenKey, expires: string, n: nat)
    requires k !in tokens
    ensures LooseOf(tokens[k := Token(expires, false)], serials[k := n]) ==
      LooseOf(tokens, serials)[k := Slip(k.id, n)]
  {
  }

  lemma LooseSpent(tokens: map<TokenKey, Token>, serials: map<TokenKey, nat>, k: TokenKey)
    requires k in tokens
    ensures LooseOf(tokens[k := tokens[k].(consumed := true)], serials) == LooseOf(tokens, serials) - {k}
  {
  }

  lemma UsedInserted(grants: map<OpId, nat>, ops: map<OpId, Operation>, op: OpId, o: Operation, n: nat)
    requires op !in ops
    ensures UsedOf(grants[op := n], ops[op := o]) == UsedOf(grants, ops)[op := Slip(o.deployment, n)]
    ensures op !in grants ==> UsedOf(grants, ops[op := o]) == UsedOf(grants, ops)
  {
  }

  /** A client's program point fits its call. */
  predicate ShapeOk(client: Client) {
    && Routable(client.call)
    && (client.pc.Insert? ==> (client.call.PurgeCall? <==> client.pc.serial.Some?))
    && (client.pc.Inspect? || client.pc.Count? || client.pc.AddRow? || client.pc.RenewRow? ==> !client.call.PurgeCall?)
  }

  ghost predicate BooksOk(q: Queue.Machine) {
    && (forall c :: c in q.clients ==> ShapeOk(q.clients[c]))
    && (forall k :: k in q.db.tokens ==> k in q.serials)
    && (forall o :: o in q.db.ops && q.db.ops[o].kind == DeletePurge ==> o in q.grants)
    && (forall o :: o in q.grants ==> o in q.db.ops)
  }

  ghost predicate TokensOk(q: Queue.Machine) {
    Sound(LedgerOf(q)) && BooksOk(q)
  }

  lemma PerformShape(db: Db, call: Call, pc: ClientPc, draw: Draw, serials: map<TokenKey, nat>)
    requires ShapeOk(Client(call, pc))
    ensures ShapeOk(Client(call, Perform(db, call, pc, draw, serials).1))
  {
  }

  lemma PerformTokens(db: Db, call: Call, pc: ClientPc, draw: Draw, serials: map<TokenKey, nat>)
    ensures var p := Perform(db, call, pc, draw, serials);
      p.0.tokens.Keys == db.tokens.Keys || (pc.Issue? && p.1.Remember?
        && p.0.tokens.Keys == db.tokens.Keys + {TokenKey(call.id, Sha256(draw.token))})
  {
  }

  lemma IssueShape(q: Queue.Machine, c: ClientId, draw: Draw, r: Queue.Machine)
    requires c in q.clients && q.clients[c].pc.Issue? && r == ServeClient(q, c, draw)
    ensures c in r.clients && r.clients == q.clients[c := r.clients[c]] && !Holder(r.clients[c])
    ensures r.grants == q.grants && r.db.ops == q.db.ops
    ensures var k := TokenKey(q.clients[c].call.id, Sha256(draw.token));
      if k in q.db.tokens then
        r.db.tokens == q.db.tokens && r.serials == q.serials && r.issued == q.issued
      else
        && r.db.tokens == q.db.tokens[k := Token(draw.expires, false)]
        && r.serials == q.serials[k := |q.issued|] && r.issued == q.issued + [k.id]
  {
  }

  lemma IssueKeepsSound(q: Queue.Machine, c: ClientId, draw: Draw, r: Queue.Machine)
    requires TokensOk(q) && c in q.clients && q.clients[c].pc.Issue? && r == ServeClient(q, c, draw)
    ensures Sound(LedgerOf(r))
  {
    IssueShape(q, c, draw, r);
    HeldMoves(q.clients, c, r.clients[c]);
    hide ServeClient, Sound, BooksOk;
    var k := TokenKey(q.clients[c].call.id, Sha256(draw.token));
    assert HeldOf(r.clients) == HeldOf(q.clients);
    if k !in q.db.tokens {
      LooseIssued(q.db.tokens, q.serials, k, draw.expires, |q.issued|);
      assert LedgerOf(r) == Issued(LedgerOf(q), k);
      IssuedSound(LedgerOf(q), k);
    }
  }

  lemma SpendShape(q: Queue.Machine, c: ClientId, draw: Draw, r: Queue.Machine)
    requires c in q.clients && q.clients[c].pc.Spend? && r == ServeClient(q, c, draw)
    ensures c in r.clients && r.clients == q.clients[c := r.clients[c]]
    ensures r.grants == q.grants && r.db.ops == q.db.ops && r.serials == q.serials && r.issued == q.issued
    ensures
      if !Holder(r.clients[c]) then
        r.db.tokens == q.db.tokens
      else
        var call := q.clients[c].call;
        call.PurgeCall? && var k := TokenKey(call.id, Sha256(call.token));
        k in q.db.tokens && !q.db.tokens[k].consumed && k in q.serials
        && r.db.tokens == q.db.tokens[k := q.db.tokens[k].(consumed := true)]
        && r.clients[c].call == call && r.clients[c].pc.serial == Some(q.serials[k])
  {
  }

  lemma SpendKeepsSound(q: Queue.Machine, c: ClientId, draw: Draw, r: Queue.Machine)
    requires TokensOk(q) && c in q.clients && q.clients[c].pc.Spend? && r == ServeClient(q, c, draw)
    ensures Sound(LedgerOf(r))
  {
    SpendShape(q, c, draw, r);
    HeldMoves(q.clients, c, r.clients[c]);
    hide ServeClient, Sound, BooksOk;
    if Holder(r.clients[c]) {
      var call := q.clients[c].call;
      var k := TokenKey(call.id, Sha256(call.token));
      LooseSpent(q.db.tokens, q.serials, k);
      assert LedgerOf(r) == Spent(LedgerOf(q), k, c);
      SpentSound(LedgerOf(q), k, c);
    } else {
      assert HeldOf(r.clients) == HeldOf(q.clients);
    }
  }

  lemma InsertShape(q: Queue.Machine, c: ClientId, draw: Draw, r: Queue.Machine)
    requires c in q.clients && q.clients[c].pc.Insert? && r == ServeClient(q, c, draw)
    ensures c in r.clients && r.clients == q.clients[c := r.clients[c]] && !Holder(r.clients[c])
    ensures r.issued == q.issued && r.serials == q.serials && r.db.tokens == q.db.tokens
    ensures var call, serial := q.clients[c].call, q.clients[c].pc.serial;
      if draw.op in q.db.ops || call.id in q.db.active then
        r.db.ops == q.db.ops && r.grants == q.grants
      else
        && r.db.ops == q.db.ops[draw.op := NewOperation(call, draw.now)]
        && r.grants == if serial.Some? then q.grants[draw.op := serial.value] else q.grants
  {
  }

  lemma InsertKeepsSound(q: Queue.Machine, c: ClientId, draw: Draw, r: Queue.Machine)
    requires TokensOk(q) && c in q.clients && q.clients[c].pc.Insert? && r == ServeClient(q, c, draw)
    ensures Sound(LedgerOf(r))
  {
    var call, serial := q.clients[c].call, q.clients[c].pc.serial;
    assert draw.op in q.grants ==> draw.op in q.db.ops;
    InsertShape(q, c, draw, r);
    HeldMoves(q.clients, c, r.clients[c]);
    hide ServeClient, Sound, BooksOk;
    var o := NewOperation(call, draw.now);
    if draw.op in q.db.ops || call.id in q.db.active {
      ShrinkSound(LedgerOf(q), LedgerOf(r));
    } else if serial.None? {
      UsedInserted(q.grants, q.db.ops, draw.op, o, 0);
      ShrinkSound(LedgerOf(q), LedgerOf(r));
    } else {
      UsedInserted(q.grants, q.db.ops, draw.op, o, serial.value);
      assert LedgerOf(r) == Used(LedgerOf(q), c, draw.op);
      UsedSound(LedgerOf(q), c, draw.op);
    }
  }

  lemma PerformOther(db: Db, call: Call, pc: ClientPc, draw: Draw, serials: map<TokenKey, nat>)
    requires !pc.Issue? && !pc.Spend? && !pc.Insert?
    ensures var p := Perform(db, call, pc, draw, serials);
      p.0.tokens == db.tokens && p.0.ops == db.ops && !Holder(Client(call, p.1))
  {
    match pc
    case LookUp =>
    case Inspect =>
    case Count =>
    case AddRow =>
    case RenewRow(prior) =>
    case Remember(response) =>
    case Answered(answer) =>
  }

  lemma OtherKeepsSound(q: Queue.Machine, c: ClientId, draw: Draw)
    requires TokensOk(q) && c in q.clients
    requires var pc := q.clients[c].pc; !pc.Issue? && !pc.Spend? && !pc.Insert?
    ensures Sound(LedgerOf(ServeClient(q, c, draw)))
  {
    var call, pc := q.clients[c].call, q.clients[c].pc;
    PerformOther(q.db, call, pc, draw, q.serials);
    var p := Perform(q.db, call, pc, draw, q.serials);
    var r := At(q.(db := p.0), c, p.1);
    HeldMoves(q.clients, c, r.clients[c]);
    assert HeldOf(r.clients) == HeldOf(q.clients);
    assert LedgerOf(r) == LedgerOf(q);
    assert ServeClient(q, c, draw) == r;
  }

  lemma ClientsStayInShape(q: Queue.Machine, c: ClientId, draw: Draw, r: Queue.Machine)
    requires BooksOk(q) && c in q.clients && r == ServeClient(q, c, draw)
    ensures r.clients == q.clients[c := r.clients[c]] && ShapeOk(r.clients[c])
  {
    assert q.clients[c] == Client(q.clients[c].call, q.clients[c].pc);
    PerformShape(q.db, q.clients[c].call, q.clients[c].pc, draw, q.serials);
  }

  lemma OtherShape(q: Queue.Machine, c: ClientId, draw: Draw, r: Queue.Machine)
    requires c in q.clients && r == ServeClient(q, c, draw)
    requires !q.clients[c].pc.Issue? && !q.clients[c].pc.Insert?
    ensures r.db.tokens.Keys == q.db.tokens.Keys && r.db.ops == q.db.ops && r.serials == q.serials && r.grants == q.grants
  {
    PerformTokens(q.db, q.clients[c].call, q.clients[c].pc, draw, q.serials);
    InsertIs(q.db, q.clients[c].call, q.clients[c].pc, draw, q.serials);
  }

  lemma ServeKeepsBooks(q: Queue.Machine, c: ClientId, draw: Draw, r: Queue.Machine)
    requires BooksOk(q) && c in q.clients && r == ServeClient(q, c, draw)
    ensures BooksOk(r)
  {
    ClientsStayInShape(q, c, draw, r);
    var call, pc := q.clients[c].call, q.clients[c].pc;
    assert pc.Insert? ==> NewOperation(call, draw.now).kind == DeletePurge ==> pc.serial.Some? by {
      assert ShapeOk(q.clients[c]);
    }
    hide ServeClient, ShapeOk, NewOperation;
    if pc.Insert? {
      InsertShape(q, c, draw, r);
    } else if pc.Issue? {
      IssueShape(q, c, draw, r);
    } else {
      OtherShape(q, c, draw, r);
    }
  }

  lemma ServeKeepsTokens(q: Queue.Machine, c: ClientId, draw: Draw)
    requires TokensOk(q) && c in q.clients
    ensures TokensOk(ServeClient(q, c, draw))
  {
    ServeKeepsBooks(q, c, draw, ServeClient(q, c, draw));
    var pc := q.clients[c].pc;
    if pc.Issue? {
      IssueKeepsSound(q, c, draw, ServeClient(q, c, draw));
    } else if pc.Spend? {
      SpendKeepsSound(q, c, draw, ServeClient(q, c, draw));
    } else if pc.Insert? {
      InsertKeepsSound(q, c, draw, ServeClient(q, c, draw));
    } else {
      OtherKeepsSound(q, c, draw);
    }
  }

  /** A step that issues, spends and grants nothing; clients and tokens may vanish. */
  ghost predicate Quiet(q: Queue.Machine, r: Queue.Machine) {
    && r.issued == q.issued && r.serials == q.serials && r.grants == q.grants
    && (forall k :: k in r.db.tokens ==> k in q.db.tokens && r.db.tokens[k] == q.db.tokens[k])
    && r.db.ops.Keys == q.db.ops.Keys
    && (forall o :: o in q.db.ops ==>
          r.db.ops[o].deployment == q.db.ops[o].deployment && r.db.ops[o].kind == q.db.ops[o].kind)
    && (forall c :: c in r.clients ==> if c in q.clients then r.clients[c] == q.clients[c] else r.clients[c].pc.LookUp?)
    && (forall c :: c in r.clients ==> ShapeOk(r.clients[c]))
  }

  lemma QuietKeepsTokens(q: Queue.Machine, r: Queue.Machine)
    requires TokensOk(q) && Quiet(q, r)
    ensures TokensOk(r)
  {
    hide ShapeOk;
    assert UsedOf(r.grants, r.db.ops) == UsedOf(q.grants, q.db.ops);
    ShrinkSound(LedgerOf(q), LedgerOf(r));
  }

  lemma ArriveQuiet(q: Queue.Machine, c: ClientId, call: Call)
    requires BooksOk(q)
    ensures Quiet(q, Arrived(q, c, call))
  {
    if c in q.clients || !Routable(call) {
    } else {
    }
  }

  lemma ClaimQuiet(q: Queue.Machine, w: WorkerId, op: OpId)
    requires BooksOk(q)
    ensures Quiet(q, Claimed(q, w, op))
  {
    if w in q.claims || !Claimable(q.db, op) {
    } else {
    }
  }

  lemma RebootQuiet(q: Queue.Machine)
    requires BooksOk(q)
    ensures Quiet(q, Rebooted(q))
  {
  }

  lemma FinishQuiet(q: Queue.Machine, w: WorkerId, ok: bool)
    requires BooksOk(q) && Exclusive(q)
    ensures Quiet(q, Finished(q, w, ok))
  {
    if w in q.claims {
      CloseEffect(q.db, q.claims[w], ok);
      hide IndexOk, Queue.Close;
    }
  }

  lemma QuietSteps(q: Queue.Machine, e: Event)
    requires BooksOk(q) && Exclusive(q) && !e.Serve?
    ensures Quiet(q, Step(q, e))
  {
    match e
    case Arrive(c, call) => ArriveQuiet(q, c, call);
    case Claim(w, op) => ClaimQuiet(q, w, op);
    case Reboot => RebootQuiet(q);
    case Finish(w, ok) => FinishQuiet(q, w, ok);
    case _ =>
  }

  lemma StepKeepsTokens(q: Queue.Machine, e: Event)
    requires TokensOk(q) && Exclusive(q)
    ensures TokensOk(Step(q, e))
  {
    if e.Serve? {
      if e.c in q.clients {
        ServeKeepsTokens(q, e.c, e.draw);
      }
    } else {
      QuietSteps(q, e);
      QuietKeepsTokens(q, Step(q, e));
    }
  }

  lemma {:induction false} RunKeepsTokens(events: seq<Event>)
    ensures TokensOk(Run(Init, events)) && Exclusive(Run(Init, events))
  {
    RunKeepsExclusive(Init, events);
    if events != [] {
      var before := events[..|events| - 1];
      RunKeepsTokens(before);
      StepKeepsTokens(Run(Init, before), events[|events| - 1]);
    }
  }

  /** In every run, the purges ever queued map injectively to token issuances for the same deployment: a token
      is spent at most once, and no purge exists without one. */
  lemma PurgesArePaidFor(events: seq<Event>)
    ensures var q := Run(Init, events);
      && (forall op :: op in q.db.ops && q.db.ops[op].kind == DeletePurge ==>
            op in q.grants && q.grants[op] < |q.issued| && q.issued[q.grants[op]] == q.db.ops[op].deployment)
      && (forall o, p :: o in q.grants && p in q.grants && o != p ==> q.grants[o] != q.grants[p])
  {
    RunKeepsTokens(events);
    var q := Run(Init, events);
    var l := LedgerOf(q);
    forall op | op in q.db.ops && q.db.ops[op].kind == DeletePurge
      ensures op in q.grants && q.grants[op] < |q.issued| && q.issued[q.grants[op]] == q.db.ops[op].deployment
    {
      assert Genuine(l.issued, l.used[op]);
    }
    forall o, p | o in q.grants && p in q.grants && o != p
      ensures q.grants[o] != q.grants[p]
    {
      assert l.used[o].serial != l.used[p].serial;
    }
  }
}

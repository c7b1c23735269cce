/**
 What a run never takes back: rows and their identities, terminal outcomes, ledger lines,
 events, and the answer a settled request was given.
 */
module History {
  import opened Wrappers
  import opened Apperr
  import opened DomainMoney
  import opened DomainWagering
  import opened DomainWallet
  import opened DomainEvent
  import opened Postgres
  import opened AppProcess
  import opened AppResolve
  import opened AppOpen
  import opened Invariants
  import opened Settlement
  import opened Openings
  import opened Runs

  // ----- the order on states -----

  /** Only five columns of a row ever change; a terminal row is final, a parked one waits or becomes terminal. */
  ghost predicate RowForward(a: WagerTx, b: WagerTx) {
    && b == a.(status := b.status, failureCode := b.failureCode, resultBalance := b.resultBalance,
               referenceId := b.referenceId, updatedAt := b.updatedAt)
    && (a.status.IsTerminal() ==> b == a)
    && (a.status == PendingReference ==> b == a || b.status.IsTerminal())
    && (b.status == Pending ==> b == a)
  }

  /** Versions count up, and a wallet at the same version is the same wallet. */
  ghost predicate WalletForward(a: Wallet, b: Wallet) {
    && b.id == a.id && b.playerId == a.playerId && b.balance.currency == a.balance.currency && b.createdAt == a.createdAt
    && a.version <= b.version
    && (a.version == b.version ==> a == b)
  }

  /** A retry row lives until its transaction is terminal; attempts never go down, the deadline never moves. */
  ghost predicate RetryForward(d: Database, id: Id, a: Retry) {
    && id in d.txs
    && (|| d.txs[id].status.IsTerminal()
        || (id in d.retries && a.attempts <= d.retries[id].attempts && a.expiresAt == d.retries[id].expiresAt))
  }

  ghost predicate RowsForward(db: Database, d: Database) {
    forall id | id in db.txs :: id in d.txs && RowForward(db.txs[id], d.txs[id])
  }

  ghost predicate WalletsForward(db: Database, d: Database) {
    forall id | id in db.wallets :: id in d.wallets && WalletForward(db.wallets[id], d.wallets[id])
  }

  ghost predicate RetriesForward(db: Database, d: Database) {
    forall id | id in db.retries :: RetryForward(d, id, db.retries[id])
  }

  predicate Extends<K, V(==)>(a: map<K, V>, b: map<K, V>) {
    forall k | k in a :: k in b && b[k] == a[k]
  }

  ghost predicate IndexesForward(db: Database, d: Database) {
    && Extends(db.owners, d.owners) && Extends(db.byExternal, d.byExternal)
    && Extends(db.byKey, d.byKey) && Extends(db.reversalOf, d.reversalOf)
  }

  ghost predicate LogsForward(db: Database, d: Database) {
    && (forall id: Id :: db.Ledger(id) <= d.Ledger(id))
    && (forall id: Id :: db.Events(id) <= d.Events(id))
  }

  ghost predicate Evolves(db: Database, d: Database) {
    RowsForward(db, d) && WalletsForward(db, d) && RetriesForward(db, d) && IndexesForward(db, d) && LogsForward(db, d)
  }

  lemma EvolvesReflexive(db: Database)
    requires db.retries.Keys <= db.txs.Keys
    ensures Evolves(db, db)
  {
  }

  lemma EvolvesTransitive(a: Database, b: Database, c: Database)
    requires Evolves(a, b) && Evolves(b, c)
    ensures Evolves(a, c)
  {
    RetriesTransitive(a, b, c);
    hide RetriesForward;
    forall id: Id
      ensures a.Ledger(id) <= c.Ledger(id) && a.Events(id) <= c.Events(id)
    {
      assert a.Ledger(id) <= b.Ledger(id) <= c.Ledger(id);
      assert a.Events(id) <= b.Events(id) <= c.Events(id);
    }
  }

  lemma RetriesTransitive(a: Database, b: Database, c: Database)
    requires RetriesForward(a, b) && RetriesForward(b, c) && RowsForward(b, c)
    ensures RetriesForward(a, c)
  {
    forall id | id in a.retries
      ensures RetryForward(c, id, a.retries[id])
    {
      assert RetryForward(b, id, a.retries[id]);
      assert RowForward(b.txs[id], c.txs[id]);
      if id in b.retries {
        assert RetryForward(c, id, b.retries[id]);
      }
    }
  }

  // ----- every step goes forward -----

  lemma InsertForward(db: Database, t: WagerTx)
    requires Indexed(db) && db.retries.Keys <= db.txs.Keys && Enterable(db, t)
    ensures Evolves(db, db.Insert(t))
  {
    FreeKeys(db, t);
    SameLogs(db, db.Insert(t));
    InsertRowsForward(db, t);
    hide Indexed, LogsForward, RowsForward, RetriesForward;
  }

  lemma InsertRowsForward(db: Database, t: WagerTx)
    requires db.retries.Keys <= db.txs.Keys && t.id !in db.txs
    ensures RowsForward(db, db.Insert(t)) && RetriesForward(db, db.Insert(t))
  {
  }

  lemma SameLogs(db: Database, d: Database)
    requires d.ledger == db.ledger && d.outbox == db.outbox
    ensures LogsForward(db, d)
  {
  }

  /** A landing moves its own row and its own wallet forward, and nothing else. */
  lemma OutcomeForward(db: Database, tx: WagerTx, w: Wallet, l: Landing, s: Stamp, open: set<Id>)
    requires Identities(db) && Landable(db, tx, open) && w == db.wallets[tx.walletId] && Justified(db, tx, w, l, s)
    requires tx.status == Pending ==> tx.id !in db.retries
    ensures Evolves(db, Outcome(db, tx, w, l, s))
  {
    OutcomeWalletsForward(db, tx, w, l, s);
    OutcomeRetriesForward(db, tx, w, l, s);
    OutcomeRowsForward(db, tx, w, l, s, open);
    OutcomeIndexesForward(db, tx, w, l, s);
    OutcomeLogsForward(db, tx, w, l, s);
    hide Outcome, RowsForward, WalletsForward, RetriesForward, IndexesForward, LogsForward, Identities, Justified;
  }

  lemma OutcomeRowsForward(db: Database, tx: WagerTx, w: Wallet, l: Landing, s: Stamp, open: set<Id>)
    requires Landable(db, tx, open) && Justified(db, tx, w, l, s)
    ensures RowsForward(db, Outcome(db, tx, w, l, s))
  {
    hide FinalOutbox, FinalRetries;
  }

  lemma OutcomeWalletsForward(db: Database, tx: WagerTx, w: Wallet, l: Landing, s: Stamp)
    requires Justified(db, tx, w, l, s) && w.id in db.wallets && w == db.wallets[w.id]
    ensures WalletsForward(db, Outcome(db, tx, w, l, s))
  {
    hide FinalOutbox, FinalRetries, FinalRow;
  }

  lemma OutcomeRetriesForward(db: Database, tx: WagerTx, w: Wallet, l: Landing, s: Stamp)
    requires db.retries.Keys <= db.txs.Keys && tx.id in db.txs && (l.Parked? ==> tx.id !in db.retries)
    ensures RetriesForward(db, Outcome(db, tx, w, l, s))
  {
    hide FinalOutbox;
    var d := Outcome(db, tx, w, l, s);
    forall id | id in db.retries
      ensures RetryForward(d, id, db.retries[id])
    {
      assert id in db.txs;
    }
  }

  lemma OutcomeIndexesForward(db: Database, tx: WagerTx, w: Wallet, l: Landing, s: Stamp)
    requires Justified(db, tx, w, l, s)
    ensures IndexesForward(db, Outcome(db, tx, w, l, s))
  {
    hide FinalOutbox, FinalRetries, FinalRow;
  }

  lemma OutcomeLogsForward(db: Database, tx: WagerTx, w: Wallet, l: Landing, s: Stamp)
    ensures LogsForward(db, Outcome(db, tx, w, l, s))
  {
  }

  lemma OpenedForward(db: Database, o: OpenInput, s: Stamp)
    requires Identities(db) && Openable(db, o, s)
    ensures Evolves(db, Opened(db, o, s))
  {
    Unused(db, o, s);
    OpenedAdds(db, o, s);
    hide Opened;
    AddsForward(db, Opened(db, o, s), o, s);
  }

  lemma AddsForward(db: Database, d: Database, o: OpenInput, s: Stamp)
    requires AddsRows(db, d, o, s) && AddsBook(db, d, o, s)
    requires db.retries.Keys <= db.txs.Keys && o.txId !in db.txs && o.walletId !in db.wallets
    requires (o.playerId, o.initial.currency) !in db.owners
    requires o.walletId !in db.ledger && o.walletId !in db.outbox && o.txId !in db.outbox
    ensures Evolves(db, d)
  {
    AddsLogsForward(db, d, o, s);
    AddsRowsForward(db, d, o, s);
    hide AddsBook, LogsForward, RowsForward, WalletsForward, RetriesForward;
  }

  lemma AddsRowsForward(db: Database, d: Database, o: OpenInput, s: Stamp)
    requires AddsRows(db, d, o, s)
    requires db.retries.Keys <= db.txs.Keys && o.txId !in db.txs && o.walletId !in db.wallets
    ensures RowsForward(db, d) && WalletsForward(db, d) && RetriesForward(db, d)
  {
    assert RowsForward(db, d);
    hide RowsForward;
    assert WalletsForward(db, d);
    hide WalletsForward;
  }

  lemma AddsLogsForward(db: Database, d: Database, o: OpenInput, s: Stamp)
    requires AddsBook(db, d, o, s) && o.walletId !in db.ledger && o.walletId !in db.outbox && o.txId !in db.outbox
    ensures LogsForward(db, d)
  {
    forall id: Id
      ensures db.Ledger(id) <= d.Ledger(id) && db.Events(id) <= d.Events(id)
    {
      assert id == o.walletId || d.Ledger(id) == db.Ledger(id);
      assert id == o.walletId || id == o.txId || d.Events(id) == db.Events(id);
    }
  }

  lemma InvForward(db: Database)
    requires Inv(db, {})
    ensures Evolves(db, db) && Identities(db) && Indexed(db) && db.retries.Keys <= db.txs.Keys
  {
    hide Indexed, Shapes, Reversals, Chains, Booked, Announced;
    EvolvesReflexive(db);
  }

  lemma SettleForward(db: Database, pending: WagerTx, s: Stamp)
    requires Inv(db, {}) && Enterable(db, pending) && Settle(db, pending, s).Success?
    ensures Evolves(db, Settle(db, pending, s).value.db)
  {
    hide Inv, Evolves, Justified, Outcome, Identities, Indexed, Landed, Settle;
    var e := db.Insert(pending);
    var w := db.wallets[pending.walletId];
    var l := Landed(e, pending, w, s);
    InvForward(db);
    SettleKeeps(db, pending, s);
    InsertForward(db, pending);
    InvKeys(e, {pending.id});
    OutcomeForward(e, pending, w, l, s, {pending.id});
    EvolvesTransitive(db, e, Outcome(e, pending, w, l, s));
  }

  lemma ProcessForward(db: Database, input: WagerInput, txId: Id, s: Stamp)
    requires Inv(db, {}) && txId !in db.wallets
    ensures match Process(db, input, txId, s)
      case Success(h) => Evolves(db, h.db)
      case Failure(_) => true
  {
    hide Inv, Evolves, Settle;
    InvForward(db);
    if Process(db, input, txId, s).Success? && Process(db, input, txId, s).value.db != db {
      var pending := Prepare(input, txId, s.now).value;
      PreparedRow(input, txId, s.now);
      EnterableHere(db, input, txId, s.now);
      SettleForward(db, pending, s.(ttl := Ttl(input)));
    }
  }

  lemma ResolveForward(db: Database, txId: Id, max: int, s: Stamp)
    requires Inv(db, {})
    ensures match Resolve(db, txId, max, s)
      case Success(d) => Evolves(db, d)
      case Failure(_) => true
  {
    hide Inv, Evolves, Write, ResolutionFor, Justified, Outcome;
    InvForward(db);
    if txId in db.txs && db.txs[txId].status == PendingReference {
      ResolveCases(db, txId, max, s);
      var tx := db.txs[txId];
      var w, retry := db.wallets[tx.walletId], db.retries[txId];
      match ResolutionFor(db, tx, retry, w, max, s) {
        case Again => RetriesOnlyForward(db, db.retries[txId := Rescheduled(retry, s.now)]);
        case Final(l) =>
          if !l.Stopped? {
            OutcomeForward(db, tx, w, l, s, {});
          }
      }
    }
  }

  lemma RetriesOnlyForward(db: Database, retries: map<Id, Retry>)
    requires db.retries.Keys <= db.txs.Keys
    requires forall id | id in db.retries ::
      id in retries && db.retries[id].attempts <= retries[id].attempts && db.retries[id].expiresAt == retries[id].expiresAt
    ensures Evolves(db, db.(retries := retries))
  {
    SameLogs(db, db.(retries := retries));
    hide LogsForward;
  }

  /** One step goes forward. */
  lemma StepForward(db: Database, step: Step)
    requires Inv(db, {}) && Admissible(db, step)
    ensures Evolves(db, Next(db, step))
  {
    hide Inv, Process, Resolve, Open, Opened, Evolves;
    InvForward(db);
    match step {
      case Submit(input, txId, s) => ProcessForward(db, input, txId, s);
      case Retried(txId, max, s) => ResolveForward(db, txId, max, s);
      case OpenFor(o, s) =>
        OpenKeeps(db, o, s);
        if Open(db, o, s).Success? {
          OpenedForward(db, o, s);
        }
      case Lease(ids, now, lockUntil) => RetriesOnlyForward(db, Leased(db, ids, lockUntil).retries);
    }
  }

  /** So does every run. */
  lemma {:induction false} RunForward(db: Database, steps: seq<Step>)
    requires Inv(db, {}) && AdmissibleRun(db, steps)
    ensures Evolves(db, Run(db, steps)) && Inv(Run(db, steps), {})
    decreases |steps|
  {
    hide Inv, Next, Admissible, Evolves;
    InvForward(db);
    if steps != [] {
      StepKeeps(db, steps[0]);
      StepForward(db, steps[0]);
      RunForward(Next(db, steps[0]), steps[1..]);
      EvolvesTransitive(db, Next(db, steps[0]), Run(Next(db, steps[0]), steps[1..]));
    }
  }

  lemma RowStatus(db: Database, id: Id)
    requires Inv(db, {}) && id in db.txs
    ensures db.txs[id].status in {PendingReference, Status.Processed, Status.Rejected}
    ensures db.txs[id].status == PendingReference <==> id in db.retries
  {
    assert Shape(db, db.txs[id], {});
  }

  lemma RowsForwardAt(db: Database, d: Database, id: Id)
    requires Evolves(db, d) && id in db.txs
    ensures id in d.txs && RowForward(db.txs[id], d.txs[id])
  {
  }
}

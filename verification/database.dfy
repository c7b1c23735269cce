/**
 The tables one SQL transaction sees, and the repositories bound to it
 (internal/infra/postgres, migrations/000001_init.up.sql).

 The ledger is kept as its rows by wallet_id and the outbox as its rows by aggregate_id,
 each in insertion order: those are the columns every query of them filters on.
 */
module Postgres {
  import opened Wrappers
  import opened Apperr
  import opened DomainMoney
  import opened DomainWagering
  import opened DomainWallet
  import opened DomainEvent

  /** A reference_retry_state row. */
  datatype Retry = Retry(attempts: int, nextAttemptAt: int, expiresAt: int, updatedAt: int)

  /** An inbox row; the body stands for its SHA-256. */
  datatype InboxRow = InboxRow(body: string, completed: bool)

  datatype Database = Database(
    wallets: map<Id, Wallet>,
    owners: map<(Id, Currency), Id>,          // wallets_player_currency_unique
    txs: map<Id, WagerTx>,
    byExternal: map<(string, string), Id>,    // wager_provider_external_uidx
    byKey: map<(string, string), Id>,         // wager_provider_idempotency_uidx
    reversalOf: map<Id, Id>,                  // wager_one_reversal_per_reference_uidx
    ledger: map<Id, seq<LedgerEntry>>,
    retries: map<Id, Retry>,
    outbox: map<Id, seq<Envelope>>)
  {
    /** Every row is stored under its primary key. */
    predicate Keyed() {
      && (forall id | id in wallets :: wallets[id].id == id)
      && (forall id | id in txs :: txs[id].id == id)
    }

    function ByExternalId(providerId: string, externalId: string): Option<WagerTx> {
      var k := (providerId, externalId);
      if k in byExternal && byExternal[k] in txs then Some(txs[byExternal[k]]) else None
    }

    function ByIdempotencyKey(providerId: string, key: string): Option<WagerTx> {
      var k := (providerId, key);
      if k in byKey && byKey[k] in txs then Some(txs[byKey[k]]) else None
    }

    /** Is there a PROCESSED REFUND or ROLLBACK of this transaction? */
    predicate Reversed(referenceId: Id) {
      referenceId in reversalOf
    }

    function Ledger(walletId: Id): seq<LedgerEntry> {
      if walletId in ledger then ledger[walletId] else []
    }

    function Events(aggregateId: Id): seq<Envelope> {
      if aggregateId in outbox then outbox[aggregateId] else []
    }

    function Emit(e: Envelope): Database {
      this.(outbox := outbox[e.aggregateId := Events(e.aggregateId) + [e]])
    }

    function Insert(tx: WagerTx): Database {
      this.(txs := txs[tx.id := tx],
            byExternal := if tx.origin == External then byExternal[(tx.providerId, tx.externalId) := tx.id] else byExternal,
            byKey := if tx.origin == External then byKey[(tx.providerId, tx.idempotencyKey) := tx.id] else byKey)
    }

    /** The columns UPDATE writes; the row keeps the others. */
    function Overwritten(tx: WagerTx): WagerTx
      requires tx.id in txs
    {
      txs[tx.id].(referenceId := tx.referenceId, status := tx.status, failureCode := tx.failureCode,
                  resultBalance := tx.resultBalance, updatedAt := tx.updatedAt)
    }

    /** The partial unique index without the row's old entry. */
    function IndexWithout(id: Id): map<Id, Id> {
      map r | r in reversalOf && reversalOf[r] != id :: reversalOf[r]
    }

    /**
     UPDATE by id, whatever the stored status. Zero rows is no error. A second PROCESSED
     reversal of one reference violates the partial unique index.
     */
    function Update(tx: WagerTx): Result<Database, Error> {
      if tx.id !in txs then
        Success(this)
      else
        var row := Overwritten(tx);
        var index := IndexWithout(tx.id);
        if row.status == Processed && row.IsReversal() && row.referenceId.Some? then
          if row.referenceId.value in index then
            Failure(Sql(UniqueViolation))
          else
            Success(this.(txs := txs[tx.id := row], reversalOf := index[row.referenceId.value := tx.id]))
        else
          Success(this.(txs := txs[tx.id := row], reversalOf := index))
    }

    predicate HasEntry(walletId: Id, txId: Id) {
      HasLine(Ledger(walletId), txId)
    }
  }

  predicate HasLine(lines: seq<LedgerEntry>, txId: Id) {
    exists i | 0 <= i < |lines| :: lines[i].transactionId == txId
  }

  const EMPTY: Database := Database(map[], map[], map[], map[], map[], map[], map[], map[], map[])

  /** What INSERT ... ON CONFLICT (provider_id, idempotency_key) DO NOTHING did. */
  datatype InsertOutcome = Inserted | Existing(tx: WagerTx)

  /** Repositories of one open SQL transaction. */
  class Repositories {
    var db: Database
    var inbox: map<string, InboxRow>
    var aborted: bool  // a statement failed: PostgreSQL refuses everything until rollback

    constructor ()
      ensures db == EMPTY && inbox == map[] && !aborted
    {
      db := EMPTY;
      inbox := map[];
      aborted := false;
    }

    method InsertWallet(w: Wallet) returns (r: Result<(), Error>)
      modifies `db, `aborted
      ensures r.Success? <==> w.id !in old(db).wallets && (w.playerId, w.balance.currency) !in old(db).owners
      ensures r.Success? ==> aborted == old(aborted)
      ensures r.Success? ==> db == old(db).(
        wallets := old(db).wallets[w.id := w], owners := old(db).owners[(w.playerId, w.balance.currency) := w.id])
      ensures r.Failure? ==> r.error == Domain(Conflict) && db == old(db) && aborted
    {
      if w.id in db.wallets || (w.playerId, w.balance.currency) in db.owners {
        aborted := true;
        return Failure(Domain(Conflict));
      }
      db := db.(wallets := db.wallets[w.id := w], owners := db.owners[(w.playerId, w.balance.currency) := w.id]);
      return Success(());
    }

    /** SELECT ... [FOR UPDATE]: the lock itself is the concern of module Locking. */
    method GetWallet(id: Id) returns (r: Result<Wallet, Error>)
      ensures r == if id in db.wallets then Success(db.wallets[id]) else Failure(Domain(WalletNotFound))
    {
      if id in db.wallets {
        return Success(db.wallets[id]);
      }
      return Failure(Domain(WalletNotFound));
    }

    /** Writes the wallet row unless its version is no longer the expected one. */
    method UpdateWallet(w: Wallet, expectedVersion: int) returns (r: Result<(), Error>)
      modifies `db, `aborted
      ensures r.Success? <==> w.id in old(db).wallets && old(db).wallets[w.id].version == expectedVersion
      ensures r.Success? ==> db == old(db).(wallets := old(db).wallets[w.id :=
        old(db).wallets[w.id].(balance := Money(w.balance.amountMinor, old(db).wallets[w.id].balance.currency),
                               version := w.version, updatedAt := w.updatedAt)])
      ensures r.Failure? ==> r.error == Domain(Conflict) && db == old(db)
      ensures aborted == old(aborted)
    {
      if w.id !in db.wallets || db.wallets[w.id].version != expectedVersion {
        return Failure(Domain(Conflict));
      }
      var row := db.wallets[w.id];
      db := db.(wallets := db.wallets[w.id :=
        row.(balance := Money(w.balance.amountMinor, row.balance.currency), version := w.version, updatedAt := w.updatedAt)]);
      return Success(());
    }

    /** Plain INSERT of an internal row. */
    method InsertTransaction(tx: WagerTx) returns (r: Result<(), Error>)
      requires tx.origin == Internal
      modifies `db, `aborted
      ensures r.Success? <==> tx.id !in old(db).txs
      ensures r.Success? ==> db == old(db).Insert(tx) && aborted == old(aborted)
      ensures r.Failure? ==> db == old(db) && aborted && r.error == Sql(UniqueViolation)
    {
      if tx.id in db.txs {
        aborted := true;
        return Failure(Sql(UniqueViolation));
      }
      db := db.Insert(tx);
      return Success(());
    }

    /**
     Inserts, or returns the row that holds the idempotency key. A duplicate external id
     (or primary key) is a unique violation: it is reported as a conflict and aborts the
     SQL transaction.
     */
    method TryInsertIdempotency(tx: WagerTx) returns (r: Result<InsertOutcome, Error>)
      requires tx.origin == External
      modifies `db, `aborted
      ensures var held := old(db).ByIdempotencyKey(tx.providerId, tx.idempotencyKey);
        var taken := tx.id in old(db).txs || old(db).ByExternalId(tx.providerId, tx.externalId).Some?;
        && (held.Some? ==> r == Success(Existing(held.value)) && db == old(db) && aborted == old(aborted))
        && (held.None? && taken ==> r == Failure(Domain(Conflict)) && db == old(db) && aborted)
        && (held.None? && !taken ==> r == Success(Inserted) && db == old(db).Insert(tx) && aborted == old(aborted))
    {
      var held := db.ByIdempotencyKey(tx.providerId, tx.idempotencyKey);
      if held.Some? {
        return Success(Existing(held.value));
      }
      if tx.id in db.txs || db.ByExternalId(tx.providerId, tx.externalId).Some? {
        aborted := true;
        return Failure(Domain(Conflict));
      }
      db := db.Insert(tx);
      return Success(Inserted);
    }

    method UpdateTransaction(tx: WagerTx) returns (r: Result<(), Error>)
      modifies `db, `aborted
      ensures match old(db).Update(tx)
        case Success(after) => r == Success(()) && db == after && aborted == old(aborted)
        case Failure(e) => r == Failure(e) && db == old(db) && aborted
    {
      var after := db.Update(tx);
      if after.Failure? {
        aborted := true;
        return Failure(after.error);
      }
      db := after.value;
      return Success(());
    }

    method GetTransaction(id: Id) returns (r: Result<WagerTx, Error>)
      ensures r == if id in db.txs then Success(db.txs[id]) else Failure(Domain(InvalidInput))
    {
      if id in db.txs {
        return Success(db.txs[id]);
      }
      return Failure(Domain(InvalidInput));
    }

    /** Appends a line; a wallet has at most one line per transaction. */
    method InsertLedger(e: LedgerEntry) returns (r: Result<(), Error>)
      modifies `db, `aborted
      ensures r.Success? <==> !old(db).HasEntry(e.walletId, e.transactionId)
      ensures r.Success? ==> aborted == old(aborted)
      ensures r.Success? ==> db == old(db).(ledger := old(db).ledger[e.walletId := old(db).Ledger(e.walletId) + [e]])
      ensures r.Failure? ==> db == old(db) && aborted && r.error == Sql(UniqueViolation)
    {
      if db.HasEntry(e.walletId, e.transactionId) {
        aborted := true;
        return Failure(Sql(UniqueViolation));
      }
      db := db.(ledger := db.ledger[e.walletId := db.Ledger(e.walletId) + [e]]);
      return Success(());
    }

    method UpsertRetry(id: Id, attempts: int, nextAttemptAt: int, expiresAt: int, updatedAt: int)
      modifies `db, `aborted
      ensures db == old(db).(retries := old(db).retries[id := Retry(attempts, nextAttemptAt, expiresAt, updatedAt)])
      ensures aborted == old(aborted)
    {
      db := db.(retries := db.retries[id := Retry(attempts, nextAttemptAt, expiresAt, updatedAt)]);
    }

    method DeleteRetry(id: Id)
      modifies `db, `aborted
      ensures db == old(db).(retries := old(db).retries - {id})
      ensures aborted == old(aborted)
    {
      db := db.(retries := db.retries - {id});
    }

    method InsertOutbox(e: Envelope)
      modifies `db, `aborted
      ensures db == old(db).Emit(e)
      ensures aborted == old(aborted)
    {
      db := db.Emit(e);
    }

    /** Records a message once; on conflict returns the body stored first. */
    method InsertInbox(messageId: string, body: string) returns (existing: Option<string>)
      modifies `inbox
      ensures messageId in old(inbox) ==> existing == Some(old(inbox)[messageId].body) && inbox == old(inbox)
      ensures messageId !in old(inbox) ==> existing == None && inbox == old(inbox)[messageId := InboxRow(body, false)]
    {
      if messageId in inbox {
        return Some(inbox[messageId].body);
      }
      inbox := inbox[messageId := InboxRow(body, false)];
      return None;
    }

    /** Fails once the SQL transaction is aborted. */
    method MarkCompleted(messageId: string) returns (r: Result<(), Error>)
      modifies `inbox
      ensures r == if aborted then Failure(Sql(InFailedTransaction)) else Success(())
      ensures inbox == if !aborted && messageId in old(inbox)
        then old(inbox)[messageId := old(inbox)[messageId].(completed := true)] else old(inbox)
    {
      if aborted {
        return Failure(Sql(InFailedTransaction));
      }
      if messageId in inbox {
        inbox := inbox[messageId := inbox[messageId].(completed := true)];
      }
      return Success(());
    }
  }
}

/**
 The event log is complete: it tells exactly what the tables tell, once each
 (internal/domain/event/event.go, and every outbox insert of the use cases).
 */
module EventLog {
  import opened Wrappers
  import opened Apperr
  import opened DomainMoney
  import opened DomainWagering
  import opened DomainWallet
  import opened DomainEvent
  import opened Postgres
  import opened AppProcess
  import opened AppResolve
  import opened Invariants
  import opened Openings
  import opened Runs
  import opened History
  import opened Queries

  // ----- a wallet's events -----

  /** Rebuilding a balance from BalanceChanged events alone. */
  function Folded(es: seq<Envelope>): int {
    if es == [] then 0
    else
      var last := es[|es| - 1].data;
      Folded(es[..|es| - 1]) +
      (if last.BalanceChanged? then (if last.direction == Credit then last.money.amountMinor else -(last.money.amountMinor as int))
       else 0)
  }

  lemma {:induction false} FoldIsSum(es: seq<Envelope>, ls: seq<LedgerEntry>, version: int, n: nat)
    requires Published(es, ls, version) && n <= |ls|
    ensures Folded(es[..n]) == NetSum(ls[..n])
    decreases n
  {
    if n > 0 {
      FoldIsSum(es, ls, version, n - 1);
      assert es[..n][..n - 1] == es[..n - 1] && ls[..n][..n - 1] == ls[..n - 1];
    }
  }

  lemma BookOf(db: Database, walletId: Id)
    requires Inv(db, {}) && walletId in db.wallets
    ensures BookAt(db, walletId) && db.wallets[walletId].id == walletId
  {
    hide Indexed, Shapes, Reversals, ChainAt, Lined, Distinct, OpensFirst, Published, WalletRow;
  }

  lemma ShapeOf(db: Database, id: Id)
    requires Inv(db, {}) && id in db.txs
    ensures db.txs[id].id == id && db.txs[id].walletId in db.wallets && Shape(db, db.txs[id], {})
  {
    hide Indexed, Reversals, Chains, Booked, Announced, Shape, WalletRow;
  }

  /** One BalanceChanged per ledger line, in its order, with its amounts and consecutive versions. */
  ghost predicate TellsLedger(db: Database, walletId: Id)
    requires walletId in db.wallets
  {
    var es, ls, w := db.Events(walletId), db.Ledger(walletId), db.wallets[walletId];
    && |es| == |ls|
    && (forall i | 0 <= i < |es| ::
          es[i].data == BalanceChanged(walletId, ls[i].transactionId, ls[i].direction, ls[i].amount,
                                       ls[i].balanceBefore, ls[i].balanceAfter, w.version - (|es| - 1 - i)))
    && (forall i, j | 0 <= i < j < |es| :: es[i].data.transactionId != es[j].data.transactionId)
    && w.version == |es| + (if OpenedByLine(db, ls) then 0 else 1)
  }

  lemma BookTells(db: Database, walletId: Id)
    requires BookAt(db, walletId) && db.wallets[walletId].id == walletId
    ensures TellsLedger(db, walletId)
  {
    hide Lined, OpensFirst, OpenedByLine;
  }

  /**
   A wallet's events tell its ledger: one BalanceChanged per line, in the same order and with
   the same amounts; versions consecutive up to the current one, so all different; and the
   events alone add up to the stored balance.
   */
  lemma WalletEvents(db: Database, walletId: Id)
    requires Inv(db, {}) && walletId in db.wallets
    ensures TellsLedger(db, walletId)
    ensures Folded(db.Events(walletId)) == db.wallets[walletId].balance.amountMinor
  {
    hide Inv, TellsLedger, ChainAt, Lined, OpensFirst, Distinct, Published;
    BookOf(db, walletId);
    BookTells(db, walletId);
    ReconcilesToZero(db, walletId);
    var es, ls, w := db.Events(walletId), db.Ledger(walletId), db.wallets[walletId];
    assert |es| == |ls| by { SameLength(es, ls, w.version); }
    FoldIsSum(es, ls, w.version, |ls|);
    assert es[..|ls|] == es && ls[..|ls|] == ls;
  }

  lemma SameLength(es: seq<Envelope>, ls: seq<LedgerEntry>, version: int)
    requires Published(es, ls, version)
    ensures |es| == |ls|
  {
  }

  // ----- a transaction's events -----

  predicate Announces(es: seq<Envelope>, i: nat, data: EventData) {
    i < |es| && es[i].data == data
  }

  /** Exactly one event of the sequence carries this data, the last. */
  predicate AnnouncedLast(es: seq<Envelope>, data: EventData) {
    && es != [] && Announces(es, |es| - 1, data)
    && forall i | 0 <= i < |es| - 1 :: !Announces(es, i, data)
  }

  /**
   A transaction's events: a PROCESSED row has one TransactionProcessed, a REJECTED row one
   TransactionRejected, as the last event and with the row's own data; only a pending event
   can come before it; a parked row has the one pending event.
   */
  lemma TransactionEvents(db: Database, id: Id)
    requires Inv(db, {}) && id in db.txs
    ensures var t, es := db.txs[id], db.Events(id);
      && (t.status == Processed ==>
            t.resultBalance.Some? &&
            AnnouncedLast(es, ProcessedData(t, Money(t.resultBalance.value, t.amount.currency))))
      && (t.status == Rejected ==> AnnouncedLast(es, RejectedData(t)))
      && (t.status == PendingReference ==> AnnouncedLast(es, PendingData(t)) && |es| == 1)
      && 1 <= |es| <= 2 && (|es| == 2 ==> es[0].data == PendingData(t))
  {
    hide Inv, Shape, AnnouncedLast;
    ShapeOf(db, id);
    ShapeAnnounces(db, db.txs[id]);
  }

  lemma ShapeAnnounces(db: Database, t: WagerTx)
    requires t.walletId in db.wallets && Shape(db, t, {})
    ensures var es := db.Events(t.id);
      && (t.status == Processed ==>
            t.resultBalance.Some? &&
            AnnouncedLast(es, ProcessedData(t, Money(t.resultBalance.value, t.amount.currency))))
      && (t.status == Rejected ==> AnnouncedLast(es, RejectedData(t)))
      && (t.status == PendingReference ==> AnnouncedLast(es, PendingData(t)) && |es| == 1)
      && 1 <= |es| <= 2 && (|es| == 2 ==> es[0].data == PendingData(t))
  {
    hide Owned;
  }

  /** A final event is no pending event. */
  lemma TwoAtMost(es: seq<Envelope>, t: WagerTx)
    requires 1 <= |es| <= 2 && es[0].data.TransactionPendingReference?
    requires t.status == PendingReference ==> |es| == 1
    requires t.status == Processed ==>
      t.resultBalance.Some? && AnnouncedLast(es, ProcessedData(t, Money(t.resultBalance.value, t.amount.currency)))
    requires t.status == Rejected ==> AnnouncedLast(es, RejectedData(t))
    ensures t.status == Processed || t.status == Rejected ==> |es| == 2
  {
  }

  lemma OpeningIsFirst(db: Database, id: Id)
    requires Inv(db, {}) && id in db.txs && db.txs[id].kind == Opening
    ensures var ls := db.Ledger(db.txs[id].walletId); |ls| > 0 && ls[0].transactionId == id
  {
    ShapeOf(db, id);
    BookOf(db, db.txs[id].walletId);
    var ls := db.Ledger(db.txs[id].walletId);
    hide Identities, Indexed, Reversals, Chains, Announced, Lined, ChainAt, Published, Distinct;
    OpeningMoves(db, id);
    assert db.HasEntry(db.txs[id].walletId, id);
    var i :| 0 <= i < |ls| && ls[i].transactionId == id;
    assert OpensFirst(db, ls);
  }

  /** An opening row is a processed one. */
  lemma OpeningMoves(db: Database, id: Id)
    requires Inv(db, {}) && id in db.txs && db.txs[id].kind == Opening
    ensures Moves(db.txs[id])
  {
    hide Indexed, Reversals, Chains, Booked, Announced;
    assert Shape(db, db.txs[id], {});
  }

  /** What the lines of a wallet look like. */
  lemma LedgerShape(db: Database, walletId: Id)
    requires Inv(db, {}) && walletId in db.wallets
    ensures var ls, w := db.Ledger(walletId), db.wallets[walletId];
      && (ls != [] ==> ls[0].balanceBefore.amountMinor == 0 && ls[|ls| - 1].balanceAfter.amountMinor == w.balance.amountMinor)
      && (ls == [] ==> w.balance.amountMinor == 0)
      && (forall i | 0 <= i < |ls| ::
            ls[i].balanceAfter.amountMinor == ls[i].balanceBefore.amountMinor + ls[i].Net() &&
            ls[i].balanceAfter.amountMinor >= 0 && ls[i].amount.currency == w.balance.currency)
      && (forall i, j | 0 <= i < |ls| && j == i + 1 < |ls| ::
            ls[j].balanceBefore.amountMinor == ls[i].balanceAfter.amountMinor)
      && w.version == 1 + |ls| - (if OpenedByLine(db, ls) then 1 else 0)
      && (forall i | 0 <= i < |ls| ::
            ls[i].transactionId in db.txs && db.txs[ls[i].transactionId].status == Processed &&
            db.txs[ls[i].transactionId].resultBalance == Some(ls[i].balanceAfter.amountMinor))
  {
    hide Inv, BookAt;
    BookOf(db, walletId);
    BookShape(db, walletId);
  }

  lemma BookShape(db: Database, walletId: Id)
    requires BookAt(db, walletId)
    ensures var ls, w := db.Ledger(walletId), db.wallets[walletId];
      && (ls != [] ==> ls[0].balanceBefore.amountMinor == 0 && ls[|ls| - 1].balanceAfter.amountMinor == w.balance.amountMinor)
      && (ls == [] ==> w.balance.amountMinor == 0)
      && (forall i | 0 <= i < |ls| ::
            ls[i].balanceAfter.amountMinor == ls[i].balanceBefore.amountMinor + ls[i].Net() &&
            ls[i].balanceAfter.amountMinor >= 0 && ls[i].amount.currency == w.balance.currency)
      && (forall i, j | 0 <= i < |ls| && j == i + 1 < |ls| ::
            ls[j].balanceBefore.amountMinor == ls[i].balanceAfter.amountMinor)
      && w.version == 1 + |ls| - (if OpenedByLine(db, ls) then 1 else 0)
      && (forall i | 0 <= i < |ls| ::
            ls[i].transactionId in db.txs && db.txs[ls[i].transactionId].status == Processed &&
            db.txs[ls[i].transactionId].resultBalance == Some(ls[i].balanceAfter.amountMinor))
  {
    hide Distinct, OpensFirst, OpenedByLine, Published;
    var ls := db.Ledger(walletId);
    forall i | 0 <= i < |ls|
      ensures ls[i].transactionId in db.txs && db.txs[ls[i].transactionId].status == Processed
      ensures db.txs[ls[i].transactionId].resultBalance == Some(ls[i].balanceAfter.amountMinor)
    {
      assert LineOfRow(db, walletId, ls[i]);
    }
    hide Lined;
  }
}

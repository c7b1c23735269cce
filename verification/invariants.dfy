/**
 What every committed state keeps: identities, indexes, row shapes, reversal chains,
 ledger chains, the bijection between settled rows and ledger lines, and the event log.
 */
module Invariants {
  import opened Wrappers
  import opened Apperr
  import opened DomainMoney
  import opened DomainWagering
  import opened DomainWallet
  import opened DomainEvent
  import opened Postgres
  import opened AppProcess
  import opened AppResolve

  // ----- the invariant -----

  /** A wallet row meets its checks and is the one its owner index points at. */
  ghost predicate WalletRow(db: Database, w: Wallet) {
    && w.version >= 1 && !w.balance.IsNegative()
    && (w.playerId, w.balance.currency) in db.owners
    && db.owners[(w.playerId, w.balance.currency)] == w.id
  }

  /** The owner index points at a wallet of this player in this currency. */
  ghost predicate OwnerEntry(db: Database, k: (Id, Currency), id: Id) {
    id in db.wallets && db.wallets[id].playerId == k.0 && db.wallets[id].balance.currency == k.1
  }

  /** Primary keys, the foreign key to wallets, the wallet checks and the owner index. */
  ghost predicate Identities(db: Database) {
    && db.Keyed()
    && db.txs.Keys !! db.wallets.Keys
    && NIL !in db.txs && NIL !in db.wallets
    && (forall id | id in db.txs :: db.txs[id].walletId in db.wallets && db.txs[id].playerId != NIL)
    && (forall id | id in db.wallets :: WalletRow(db, db.wallets[id]))
    && (forall k | k in db.owners :: OwnerEntry(db, k, db.owners[k]))
    && db.ledger.Keys <= db.wallets.Keys
    && db.retries.Keys <= db.txs.Keys
    && db.outbox.Keys <= db.txs.Keys + db.wallets.Keys
  }

  ghost predicate RowIndexed(db: Database, t: WagerTx) {
    && (t.providerId, t.externalId) in db.byExternal && db.byExternal[(t.providerId, t.externalId)] == t.id
    && (t.providerId, t.idempotencyKey) in db.byKey && db.byKey[(t.providerId, t.idempotencyKey)] == t.id
  }

  ghost predicate ExternalEntry(db: Database, k: (string, string), id: Id) {
    && id in db.txs && db.txs[id].origin == External
    && db.txs[id].providerId == k.0 && db.txs[id].externalId == k.1
  }

  ghost predicate KeyEntry(db: Database, k: (string, string), id: Id) {
    && id in db.txs && db.txs[id].origin == External
    && db.txs[id].providerId == k.0 && db.txs[id].idempotencyKey == k.1
  }

  /** Each external row is the one its two unique keys point at, and the keys point at nothing else. */
  ghost predicate Indexed(db: Database) {
    && (forall id | id in db.txs && db.txs[id].origin == External :: RowIndexed(db, db.txs[id]))
    && (forall k | k in db.byExternal :: ExternalEntry(db, k, db.byExternal[k]))
    && (forall k | k in db.byKey :: KeyEntry(db, k, db.byKey[k]))
  }

  predicate Owned(w: Wallet, t: WagerTx) {
    w.playerId == t.playerId && w.balance.currency == t.amount.currency
  }

  /** LOSS settles without moving money; every other settled kind moves its amount. */
  predicate Moves(t: WagerTx) {
    t.status == Processed && t.kind != Loss
  }

  ghost predicate SettledEvents(es: seq<Envelope>, t: WagerTx, last: EventData) {
    && 1 <= |es| <= 2
    && es[|es| - 1].data == last
    && (|es| == 2 ==> es[0].data == PendingData(t))
  }

  /** What a row looks like in each status; PENDING only while its own transaction is open. */
  ghost predicate Shape(db: Database, t: WagerTx, open: set<Id>)
    requires t.walletId in db.wallets
  {
    && (t.origin == Internal <==> t.kind == Opening)
    && (t.origin == External ==> t.payloadHash.Some?)
    && !t.kind.Unknown?
    && (if t.kind == Loss then t.amount.IsZero() else t.amount.IsPositive())
    && match t.status
       case Pending =>
         && t.id in open && t.origin == External
         && t.referenceId.None? && t.failureCode.None? && t.resultBalance.None?
         && t.id !in db.retries && db.Events(t.id) == []
       case PendingReference =>
         && t.id !in open && t.IsReversal() && Owned(db.wallets[t.walletId], t)
         && t.referenceId.None? && t.failureCode.None? && t.resultBalance.None?
         && t.id in db.retries && db.retries[t.id].attempts >= 0
         && |db.Events(t.id)| == 1 && db.Events(t.id)[0].data == PendingData(t)
       case Processed =>
         && Owned(db.wallets[t.walletId], t)
         && (t.referenceId.Some? <==> t.IsReversal()) && t.failureCode.None? && t.resultBalance.Some?
         && t.id !in db.retries
         && SettledEvents(db.Events(t.id), t, ProcessedData(t, Money(t.resultBalance.value, t.amount.currency)))
       case Rejected =>
         && t.origin == External && t.referenceId.None? && t.failureCode.Some? && t.resultBalance.Some?
         && t.id !in db.retries
         && SettledEvents(db.Events(t.id), t, RejectedData(t))
       case Failed => false
  }

  ghost predicate Shapes(db: Database, open: set<Id>)
    requires Identities(db)
  {
    forall id | id in db.txs :: Shape(db, db.txs[id], open)
  }

  /** Who may reverse whom: BET by either, WIN and REFUND by ROLLBACK only. */
  predicate Reversible(t: WagerTx, ref: WagerTx) {
    || (t.IsReversal() && ref.kind == Bet)
    || (t.kind == Rollback && (ref.kind == Win || ref.kind == Refund))
  }

  /** t, processed, is the one reversal of a processed row that matches it and that it names. */
  ghost predicate Reverses(db: Database, t: WagerTx)
    requires t.referenceId.Some?
  {
    var r := t.referenceId.value;
    && r in db.txs && db.txs[r].status == Processed
    && Mismatch(t, db.txs[r]).None? && Reversible(t, db.txs[r])
    && db.txs[r].origin == External && db.txs[r].externalId == t.referenceExternalId
    && r in db.reversalOf && db.reversalOf[r] == t.id
  }

  ghost predicate Reversals(db: Database) {
    && (forall id | id in db.txs && db.txs[id].status == Processed && db.txs[id].referenceId.Some? ::
          Reverses(db, db.txs[id]))
    && (forall r | r in db.reversalOf :: ReversalEntry(db, r, db.reversalOf[r]))
  }

  ghost predicate ReversalEntry(db: Database, r: Id, id: Id) {
    && id in db.txs && db.txs[id].status == Processed && db.txs[id].IsReversal()
    && db.txs[id].referenceId == Some(r)
  }

  /** Lines run from zero to the balance, each starting where the one before ended. */
  ghost predicate Chain(ls: seq<LedgerEntry>, w: Wallet) {
    && (forall i | 0 <= i < |ls| :: ls[i].Sound() && ls[i].walletId == w.id && ls[i].amount.currency == w.balance.currency)
    && (forall i | 0 <= i < |ls| :: ls[i].balanceBefore.amountMinor == EndOf(ls, i))
    && w.balance.amountMinor == EndOf(ls, |ls|)
  }

  /** The balance once the first i lines are posted. */
  function EndOf(ls: seq<LedgerEntry>, i: nat): int
    requires i <= |ls|
  {
    if i == 0 then 0 else ls[i - 1].balanceAfter.amountMinor
  }

  /** The first line is the opening's. */
  ghost predicate OpenedByLine(db: Database, ls: seq<LedgerEntry>) {
    |ls| > 0 && ls[0].transactionId in db.txs && db.txs[ls[0].transactionId].kind == Opening
  }

  /** A wallet's lines end at its balance, and each line but an opening's raised its version. */
  ghost predicate ChainAt(db: Database, id: Id) {
    && id in db.wallets
    && Chain(db.Ledger(id), db.wallets[id])
    && db.wallets[id].version == 1 + |db.Ledger(id)| - (if OpenedByLine(db, db.Ledger(id)) then 1 else 0)
  }

  ghost predicate Chains(db: Database) {
    forall id | id in db.wallets :: ChainAt(db, id)
  }

  /** Which way a settled row moved its wallet. */
  function DirectionOf(db: Database, t: WagerTx): Direction {
    match t.kind
    case Bet => Debit
    case Rollback =>
      if t.referenceId.Some? && t.referenceId.value in db.txs && db.txs[t.referenceId.value].kind != Bet then Debit else Credit
    case _ => Credit
  }

  /** The line records exactly the movement of a settled row of this wallet. */
  ghost predicate LineOfRow(db: Database, walletId: Id, line: LedgerEntry) {
    && line.transactionId in db.txs
    && (var t := db.txs[line.transactionId];
        && Moves(t) && t.walletId == walletId
        && line.amount == t.amount && line.direction == DirectionOf(db, t)
        && t.resultBalance == Some(line.balanceAfter.amountMinor))
  }

  ghost predicate Lined(db: Database, walletId: Id) {
    forall i | 0 <= i < |db.Ledger(walletId)| :: LineOfRow(db, walletId, db.Ledger(walletId)[i])
  }

  ghost predicate Distinct(ls: seq<LedgerEntry>) {
    forall i, j | 0 <= i < j < |ls| :: ls[i].transactionId != ls[j].transactionId
  }

  /** Only the first line can be an opening's. */
  ghost predicate OpensFirst(db: Database, ls: seq<LedgerEntry>) {
    forall i | 0 < i < |ls| && ls[i].transactionId in db.txs :: db.txs[ls[i].transactionId].kind != Opening
  }

  /** Settled movers and ledger lines are in one-to-one correspondence. */
  ghost predicate Booked(db: Database) {
    && (forall w | w in db.wallets :: Lined(db, w) && Distinct(db.Ledger(w)) && OpensFirst(db, db.Ledger(w)))
    && (forall id | id in db.txs && Moves(db.txs[id]) :: db.HasEntry(db.txs[id].walletId, id))
  }

  /** One balance event per line, in order, numbered up to the wallet's version. */
  ghost predicate Published(es: seq<Envelope>, ls: seq<LedgerEntry>, version: int) {
    && |es| == |ls|
    && forall i | 0 <= i < |ls| :: es[i].data == ChangedData(ls[i], version - (|ls| - 1 - i))
  }

  ghost predicate Announced(db: Database) {
    forall id | id in db.wallets :: Published(db.Events(id), db.Ledger(id), db.wallets[id].version)
  }

  /** The whole invariant; open holds the rows inserted by transactions not yet finished. */
  ghost predicate Inv(db: Database, open: set<Id>) {
    && Identities(db) && Indexed(db) && Shapes(db, open)
    && Reversals(db) && Chains(db) && Booked(db) && Announced(db)
  }

  // ----- lookups under the invariant -----

  /** The lookup by external id finds a row exactly when there is one. */
  lemma ExternalLookup(db: Database, providerId: string, externalId: string)
    requires Indexed(db)
    ensures var found := db.ByExternalId(providerId, externalId);
      && (found.Some? ==> found.value in db.txs.Values && found.value.origin == External &&
                          found.value.providerId == providerId && found.value.externalId == externalId)
      && (found.None? ==> forall id | id in db.txs && db.txs[id].origin == External ::
            !(db.txs[id].providerId == providerId && db.txs[id].externalId == externalId))
  {
    var k := (providerId, externalId);
    if k in db.byExternal {
      assert db.txs[db.byExternal[k]] in db.txs.Values;
    }
  }

  /** The lookup by idempotency key likewise. */
  lemma KeyLookup(db: Database, providerId: string, key: string)
    requires Indexed(db)
    ensures var found := db.ByIdempotencyKey(providerId, key);
      && (found.Some? ==> found.value in db.txs.Values && found.value.origin == External &&
                          found.value.providerId == providerId && found.value.idempotencyKey == key)
      && (found.None? ==> forall id | id in db.txs && db.txs[id].origin == External ::
            !(db.txs[id].providerId == providerId && db.txs[id].idempotencyKey == key))
  {
    var k := (providerId, key);
    if k in db.byKey {
      assert db.txs[db.byKey[k]] in db.txs.Values;
    }
  }

  /**
   At most one PROCESSED reversal per referenced transaction, and the reversal query finds
   it exactly when it exists.
   */
  lemma OneReversalPerReference(db: Database, open: set<Id>, a: Id, b: Id, r: Id)
    requires Inv(db, open)
    requires a in db.txs && db.txs[a].status == Processed && db.txs[a].IsReversal() && db.txs[a].referenceId == Some(r)
    requires b in db.txs && db.txs[b].status == Processed && db.txs[b].IsReversal() && db.txs[b].referenceId == Some(r)
    ensures a == b && db.Reversed(r) && db.reversalOf[r] == a
  {
    assert Reverses(db, db.txs[a]) && Reverses(db, db.txs[b]);
  }

  // ----- inserting the row -----

  /** The new row meets what the constructor guarantees, and its keys are free. */
  ghost predicate Enterable(db: Database, t: WagerTx) {
    && t.status == Pending && t.origin == External && t.payloadHash.Some?
    && t.kind != Opening && !t.kind.Unknown?
    && (if t.kind == Loss then t.amount.IsZero() else t.amount.IsPositive())
    && t.referenceId.None? && t.failureCode.None? && t.resultBalance.None?
    && t.id != NIL && t.playerId != NIL && t.walletId in db.wallets
    && t.id !in db.txs && t.id !in db.wallets
    && db.ByExternalId(t.providerId, t.externalId).None?
    && db.ByIdempotencyKey(t.providerId, t.idempotencyKey).None?
  }

  /** Inserting it leaves everything in place with that one row open. */
  lemma InsertKeeps(db: Database, t: WagerTx)
    requires Inv(db, {}) && Enterable(db, t)
    ensures Inv(db.Insert(t), {t.id})
  {
    hide Identities, Indexed, Shapes, Reversals, Chains, Booked, Announced, SameSettled;
    var d := db.Insert(t);
    FreeKeys(db, t);
    IdentitiesKey(db);
    InsertKeepsIdentities(db, t);
    InsertKeepsIndexes(db, t);
    InsertKeepsShapes(db, t);
    InsertSettlesNothing(db, t);
    ReversalsFrame(db, d);
    BooksFrame(db, d);
    AnnouncedFrame(db, d);
  }

  /** A lookup that finds nothing means the unique index has no such entry. */
  lemma FreeKeys(db: Database, t: WagerTx)
    requires Indexed(db)
    requires db.ByExternalId(t.providerId, t.externalId).None?
    requires db.ByIdempotencyKey(t.providerId, t.idempotencyKey).None?
    ensures (t.providerId, t.externalId) !in db.byExternal && (t.providerId, t.idempotencyKey) !in db.byKey
  {
  }

  lemma InsertKeepsIdentities(db: Database, t: WagerTx)
    requires Identities(db) && Enterable(db, t)
    ensures Identities(db.Insert(t))
  {
    hide WalletRow, OwnerEntry;
    SameOwners(db, db.Insert(t));
  }

  /** Wallet rows and the owner index speak of each other only. */
  lemma SameOwners(db: Database, d: Database)
    requires d.wallets == db.wallets && d.owners == db.owners
    requires forall id | id in db.wallets :: WalletRow(db, db.wallets[id])
    requires forall k | k in db.owners :: OwnerEntry(db, k, db.owners[k])
    ensures forall id | id in d.wallets :: WalletRow(d, d.wallets[id])
    ensures forall k | k in d.owners :: OwnerEntry(d, k, d.owners[k])
  {
    forall id | id in d.wallets
      ensures WalletRow(d, d.wallets[id])
    {
      assert WalletRow(db, db.wallets[id]);
    }
    forall k | k in d.owners
      ensures OwnerEntry(d, k, d.owners[k])
    {
      assert OwnerEntry(db, k, db.owners[k]);
    }
  }

  lemma InsertKeepsIndexes(db: Database, t: WagerTx)
    requires db.Keyed() && Indexed(db) && t.id !in db.txs && t.origin == External
    requires (t.providerId, t.externalId) !in db.byExternal && (t.providerId, t.idempotencyKey) !in db.byKey
    ensures Indexed(db.Insert(t))
  {
    var d := db.Insert(t);
    forall id | id in d.txs && d.txs[id].origin == External
      ensures RowIndexed(d, d.txs[id])
    {
      if id != t.id {
        assert RowIndexed(db, db.txs[id]);
      }
    }
    forall k | k in d.byExternal
      ensures ExternalEntry(d, k, d.byExternal[k])
    {
      if k != (t.providerId, t.externalId) {
        assert ExternalEntry(db, k, db.byExternal[k]);
      }
    }
    forall k | k in d.byKey
      ensures KeyEntry(d, k, d.byKey[k])
    {
      if k != (t.providerId, t.idempotencyKey) {
        assert KeyEntry(db, k, db.byKey[k]);
      }
    }
  }

  lemma IdentitiesKey(db: Database)
    requires Identities(db)
    ensures db.Keyed()
  {
  }

  lemma InsertSettlesNothing(db: Database, t: WagerTx)
    requires Identities(db) && Enterable(db, t)
    ensures SameSettled(db, db.Insert(t))
    ensures forall id | id in db.txs :: db.txs[id].walletId in db.wallets
    ensures forall id | id in db.wallets :: db.Insert(t).Events(id) == db.Events(id)
  {
  }

  lemma InsertKeepsShapes(db: Database, t: WagerTx)
    requires Identities(db) && Shapes(db, {}) && Enterable(db, t) && Identities(db.Insert(t))
    ensures Shapes(db.Insert(t), {t.id})
  {
    hide Shape, Enterable, WalletRow;
    var d := db.Insert(t);
    forall id | id in d.txs
      ensures Shape(d, d.txs[id], {t.id})
    {
      if id != t.id {
        assert Shape(db, db.txs[id], {});
        InsertedOtherShape(db, t, id);
      } else {
        EnteredUnused(db, t);
        InsertedShape(db, t);
      }
    }
  }

  lemma EnteredUnused(db: Database, t: WagerTx)
    requires Identities(db) && Enterable(db, t)
    ensures t.id !in db.retries && t.id !in db.outbox && t.walletId in db.wallets
  {
  }

  lemma InsertedOtherShape(db: Database, t: WagerTx, id: Id)
    requires id in db.txs && id != t.id && db.txs[id].id == id && db.txs[id].walletId in db.wallets
    requires Shape(db, db.txs[id], {})
    ensures Shape(db.Insert(t), db.txs[id], {t.id})
  {
    assert db.Insert(t).Events(id) == db.Events(id);
  }

  lemma InsertedShape(db: Database, t: WagerTx)
    requires Enterable(db, t) && t.id !in db.retries && t.id !in db.outbox
    ensures Shape(db.Insert(t), t, {t.id})
  {
  }

  // ----- frames -----

  /** Settled rows, and the rows they refer to, are as before; no row but a LOSS settles. */
  ghost predicate SameSettled(db: Database, d: Database) {
    && (forall id | id in db.txs :: id in d.txs && d.txs[id].kind == db.txs[id].kind)
    && (forall id | id in db.txs && db.txs[id].status == Processed :: d.txs[id] == db.txs[id])
    && (forall id | id in d.txs && d.txs[id].status == Processed ::
          || (id in db.txs && db.txs[id].status == Processed)
          || (d.txs[id].kind == Loss && d.txs[id].referenceId.None?))
  }

  lemma ReversalsFrame(db: Database, d: Database)
    requires Reversals(db) && SameSettled(db, d) && d.reversalOf == db.reversalOf
    ensures Reversals(d)
  {
    forall id | id in d.txs && d.txs[id].status == Processed && d.txs[id].referenceId.Some?
      ensures Reverses(d, d.txs[id])
    {
      assert Reverses(db, db.txs[id]);
    }
  }

  lemma BooksFrame(db: Database, d: Database)
    requires Reversals(db) && Chains(db) && Booked(db)
    requires SameSettled(db, d) && d.wallets == db.wallets && d.ledger == db.ledger
    requires forall id | id in db.txs :: db.txs[id].walletId in db.wallets
    ensures Chains(d) && Booked(d)
  {
    hide Reversals, SameSettled, Lined, Distinct, OpensFirst, ChainAt;
    forall w | w in d.wallets
      ensures ChainAt(d, w) && Lined(d, w) && Distinct(d.Ledger(w)) && OpensFirst(d, d.Ledger(w))
    {
      assert ChainAt(db, w) && Lined(db, w);
      BookFrame(db, d, w);
    }
    EntriesFrame(db, d);
  }

  lemma EntriesFrame(db: Database, d: Database)
    requires forall id | id in db.txs && Moves(db.txs[id]) :: db.HasEntry(db.txs[id].walletId, id)
    requires SameSettled(db, d) && d.ledger == db.ledger
    ensures forall id | id in d.txs && Moves(d.txs[id]) :: d.HasEntry(d.txs[id].walletId, id)
  {
    forall id | id in d.txs && Moves(d.txs[id])
      ensures d.HasEntry(d.txs[id].walletId, id)
    {
      assert db.HasEntry(db.txs[id].walletId, id);
    }
  }

  lemma BookFrame(db: Database, d: Database, w: Id)
    requires Reversals(db) && SameSettled(db, d) && d.Ledger(w) == db.Ledger(w) && d.wallets == db.wallets
    requires ChainAt(db, w) && Lined(db, w) && OpensFirst(db, db.Ledger(w))
    ensures ChainAt(d, w) && Lined(d, w) && OpensFirst(d, d.Ledger(w))
  {
    hide Chain;
    forall i | 0 <= i < |db.Ledger(w)|
      ensures LineOfRow(db, w, db.Ledger(w)[i]) && LineOfRow(d, w, db.Ledger(w)[i])
      ensures d.txs[db.Ledger(w)[i].transactionId] == db.txs[db.Ledger(w)[i].transactionId]
    {
      LineFrame(db, d, w, db.Ledger(w)[i]);
    }
    hide Reversals, SameSettled;
  }

  lemma LineFrame(db: Database, d: Database, w: Id, line: LedgerEntry)
    requires Reversals(db) && SameSettled(db, d) && LineOfRow(db, w, line)
    ensures LineOfRow(d, w, line)
    ensures d.txs[line.transactionId] == db.txs[line.transactionId]
  {
    var t := db.txs[line.transactionId];
    assert t.referenceId.Some? ==> Reverses(db, t);
  }

  lemma AnnouncedFrame(db: Database, d: Database)
    requires Announced(db) && d.wallets == db.wallets && d.ledger == db.ledger
    requires forall id | id in db.wallets :: d.Events(id) == db.Events(id)
    ensures Announced(d)
  {
    forall id | id in d.wallets
      ensures Published(d.Events(id), d.Ledger(id), d.wallets[id].version)
    {
      assert d.Ledger(id) == db.Ledger(id);
    }
  }
}

/** Opening a wallet keeps the invariant: the wallet starts its own ledger and event log. */
module Openings {
  import opened Wrappers
  import opened Apperr
  import opened DomainMoney
  import opened DomainWagering
  import opened DomainWallet
  import opened DomainEvent
  import opened Postgres
  import opened AppProcess
  import opened AppOpen
  import opened Invariants

  /** The UUIDs are new, and the request passes the checks of the use case. */
  ghost predicate Openable(db: Database, o: OpenInput, s: Stamp) {
    && s.Usable() && o.walletId != NIL && o.txId != NIL && o.playerId != NIL && o.walletId != o.txId
    && o.walletId !in db.txs && o.txId !in db.wallets && o.txId !in db.txs && o.walletId !in db.wallets
    && !o.initial.IsNegative() && (o.playerId, o.initial.currency) !in db.owners
  }

  /** What opening adds to wallets and rows. */
  ghost predicate AddsRows(db: Database, d: Database, o: OpenInput, s: Stamp) {
    && d.wallets == db.wallets[o.walletId := OpenedWallet(o, s.now)]
    && d.owners == db.owners[(o.playerId, o.initial.currency) := o.walletId]
    && d.txs == (if o.initial.IsPositive() then db.txs[o.txId := OpeningRow(o, s.now)] else db.txs)
    && d.byExternal == db.byExternal && d.byKey == db.byKey && d.reversalOf == db.reversalOf && d.retries == db.retries
    && d.ledger.Keys <= db.ledger.Keys + {o.walletId}
    && d.outbox.Keys <= db.outbox.Keys + {o.walletId} + (if o.initial.IsPositive() then {o.txId} else {})
  }

  /** What opening adds to the ledger and the outbox. */
  ghost predicate AddsBook(db: Database, d: Database, o: OpenInput, s: Stamp) {
    && (forall id | id != o.walletId :: d.Ledger(id) == db.Ledger(id))
    && (forall id | id != o.walletId && id != o.txId :: d.Events(id) == db.Events(id))
    && d.Ledger(o.walletId) == (if o.initial.IsPositive() then [OpeningLine(o, s)] else [])
    && |d.Events(o.walletId)| == (if o.initial.IsPositive() then 1 else 0)
    && (o.initial.IsPositive() ==>
          && d.Events(o.walletId)[0].data == ChangedData(OpeningLine(o, s), 1)
          && |d.Events(o.txId)| == 1 && d.Events(o.txId)[0].data == ProcessedData(OpeningRow(o, s.now), o.initial))
  }

  lemma OpenedAdds(db: Database, o: OpenInput, s: Stamp)
    requires Identities(db) && Openable(db, o, s)
    ensures AddsRows(db, Opened(db, o, s), o, s) && AddsBook(db, Opened(db, o, s), o, s)
  {
    Unused(db, o, s);
    hide Identities, Openable;
    OpenedAddsRows(db, o, s);
    OpenedAddsBook(db, o, s);
  }

  lemma Unused(db: Database, o: OpenInput, s: Stamp)
    requires Identities(db) && Openable(db, o, s)
    ensures o.walletId !in db.ledger && o.walletId !in db.outbox && o.txId !in db.outbox && o.txId !in db.retries
    ensures o.walletId != o.txId
  {
  }

  lemma OpenedAddsRows(db: Database, o: OpenInput, s: Stamp)
    ensures AddsRows(db, Opened(db, o, s), o, s)
  {
  }

  lemma OpenedAddsBook(db: Database, o: OpenInput, s: Stamp)
    requires o.walletId !in db.ledger && o.walletId !in db.outbox && o.txId !in db.outbox && o.walletId != o.txId
    ensures AddsBook(db, Opened(db, o, s), o, s)
  {
  }

  lemma OpenKeepsIdentities(db: Database, d: Database, o: OpenInput, s: Stamp)
    requires Identities(db) && Openable(db, o, s) && AddsRows(db, d, o, s)
    ensures Identities(d)
  {
    hide WalletRow, OwnerEntry;
    OpenKeepsWalletRows(db, d, o, s);
    OpenKeepsOwners(db, d, o, s);
  }

  lemma OpenKeepsWalletRows(db: Database, d: Database, o: OpenInput, s: Stamp)
    requires Openable(db, o, s) && AddsRows(db, d, o, s)
    requires forall id | id in db.wallets :: db.wallets[id].id == id && WalletRow(db, db.wallets[id])
    ensures forall id | id in d.wallets :: d.wallets[id].id == id && WalletRow(d, d.wallets[id])
  {
    forall id | id in d.wallets
      ensures d.wallets[id].id == id && WalletRow(d, d.wallets[id])
    {
      if id != o.walletId {
        assert WalletRow(db, db.wallets[id]);
      }
    }
  }

  lemma OpenKeepsOwners(db: Database, d: Database, o: OpenInput, s: Stamp)
    requires Openable(db, o, s) && AddsRows(db, d, o, s)
    requires forall k | k in db.owners :: OwnerEntry(db, k, db.owners[k])
    ensures forall k | k in d.owners :: OwnerEntry(d, k, d.owners[k])
  {
    forall k | k in d.owners
      ensures OwnerEntry(d, k, d.owners[k])
    {
      assert k in db.owners ==> OwnerEntry(db, k, db.owners[k]);
    }
  }

  lemma OpenKeepsIndexed(db: Database, d: Database, o: OpenInput, s: Stamp)
    requires Indexed(db) && o.txId !in db.txs && AddsRows(db, d, o, s)
    ensures Indexed(d)
  {
    forall id | id in d.txs && d.txs[id].origin == External
      ensures RowIndexed(d, d.txs[id])
    {
      assert RowIndexed(db, db.txs[id]);
    }
    forall k | k in d.byExternal
      ensures ExternalEntry(d, k, d.byExternal[k])
    {
      assert ExternalEntry(db, k, db.byExternal[k]);
    }
    forall k | k in d.byKey
      ensures KeyEntry(d, k, d.byKey[k])
    {
      assert KeyEntry(db, k, db.byKey[k]);
    }
  }

  lemma OpenKeepsShapes(db: Database, d: Database, o: OpenInput, s: Stamp)
    requires Identities(db) && Shapes(db, {}) && Openable(db, o, s) && Identities(d)
    requires AddsRows(db, d, o, s) && AddsBook(db, d, o, s) && o.txId !in db.retries
    ensures Shapes(d, {})
  {
    forall id | id in d.txs
      ensures Shape(d, d.txs[id], {})
    {
      if id != o.txId {
        assert Shape(db, db.txs[id], {});
        OldShape(db, d, o, s, id);
      } else {
        NewShape(db, d, o, s);
      }
    }
  }

  lemma OldShape(db: Database, d: Database, o: OpenInput, s: Stamp, id: Id)
    requires AddsRows(db, d, o, s) && AddsBook(db, d, o, s)
    requires id in db.txs && id != o.txId && id != o.walletId && db.txs[id].id == id
    requires db.txs[id].walletId in db.wallets && o.walletId !in db.wallets && Shape(db, db.txs[id], {})
    ensures d.txs[id].walletId in d.wallets && Shape(d, d.txs[id], {})
  {
    assert d.Events(id) == db.Events(id);
  }

  lemma NewShape(db: Database, d: Database, o: OpenInput, s: Stamp)
    requires AddsRows(db, d, o, s) && AddsBook(db, d, o, s) && o.txId in d.txs && o.txId !in db.txs && o.txId !in db.retries
    ensures d.txs[o.txId].walletId in d.wallets && Shape(d, d.txs[o.txId], {})
  {
  }

  lemma OpenKeepsReversals(db: Database, d: Database, o: OpenInput, s: Stamp)
    requires Reversals(db) && o.txId !in db.txs && AddsRows(db, d, o, s)
    ensures Reversals(d)
  {
    forall id | id in d.txs && d.txs[id].status == Processed && d.txs[id].referenceId.Some?
      ensures Reverses(d, d.txs[id])
    {
      assert Reverses(db, db.txs[id]);
    }
    forall r | r in d.reversalOf
      ensures ReversalEntry(d, r, d.reversalOf[r])
    {
      assert ReversalEntry(db, r, db.reversalOf[r]);
    }
  }

  /** Everything the books say of one wallet. */
  ghost predicate BookAt(db: Database, w: Id) {
    && ChainAt(db, w) && Lined(db, w) && Distinct(db.Ledger(w)) && OpensFirst(db, db.Ledger(w))
    && Published(db.Events(w), db.Ledger(w), db.wallets[w].version)
  }

  /** Another wallet's book is untouched. */
  lemma OtherBook(db: Database, d: Database, o: OpenInput, s: Stamp, w: Id)
    requires Reversals(db) && o.txId !in db.txs && w != o.walletId && w != o.txId
    requires AddsRows(db, d, o, s) && AddsBook(db, d, o, s) && BookAt(db, w)
    ensures BookAt(d, w)
  {
    hide Chain, Published;
    forall i | 0 <= i < |db.Ledger(w)|
      ensures LineOfRow(db, w, db.Ledger(w)[i]) && LineOfRow(d, w, db.Ledger(w)[i])
      ensures d.txs[db.Ledger(w)[i].transactionId] == db.txs[db.Ledger(w)[i].transactionId]
    {
      OtherLine(db, d, o, s, w, db.Ledger(w)[i]);
    }
    hide Reversals, AddsRows;
    assert d.wallets[w] == db.wallets[w];
  }

  lemma OtherLine(db: Database, d: Database, o: OpenInput, s: Stamp, w: Id, line: LedgerEntry)
    requires Reversals(db) && o.txId !in db.txs && AddsRows(db, d, o, s) && LineOfRow(db, w, line)
    ensures LineOfRow(d, w, line) && d.txs[line.transactionId] == db.txs[line.transactionId]
  {
    var t := db.txs[line.transactionId];
    assert t.referenceId.Some? ==> Reverses(db, t);
  }

  /** The new wallet's book holds the opening line, or nothing. */
  lemma NewBook(db: Database, d: Database, o: OpenInput, s: Stamp)
    requires !o.initial.IsNegative() && AddsRows(db, d, o, s) && AddsBook(db, d, o, s)
    ensures BookAt(d, o.walletId)
  {
    if o.initial.IsPositive() {
      var line := OpeningLine(o, s);
      assert d.Ledger(o.walletId) == [line];
      assert line.Sound();
      assert LineOfRow(d, o.walletId, line);
      assert EndOf([line], 0) == 0 && EndOf([line], 1) == o.initial.amountMinor;
    }
  }

  lemma OpenKeepsBooks(db: Database, d: Database, o: OpenInput, s: Stamp)
    requires Reversals(db) && Chains(db) && Booked(db) && Announced(db)
    requires o.txId !in db.txs && o.txId !in db.wallets && o.walletId !in db.txs && o.txId != o.walletId
    requires !o.initial.IsNegative() && AddsRows(db, d, o, s) && AddsBook(db, d, o, s)
    requires forall id | id in db.txs :: db.txs[id].walletId in db.wallets && o.walletId !in db.wallets
    ensures Chains(d) && Booked(d) && Announced(d)
  {
    hide ChainAt, Lined, Distinct, OpensFirst, Published;
    forall w | w in d.wallets
      ensures BookAt(d, w)
    {
      BookHere(db, d, o, s, w);
    }
    OpenKeepsEntries(db, d, o, s);
    hide AddsRows, AddsBook;
  }

  lemma BookHere(db: Database, d: Database, o: OpenInput, s: Stamp, w: Id)
    requires Reversals(db) && Chains(db) && Booked(db) && Announced(db)
    requires o.txId !in db.txs && o.txId !in db.wallets && !o.initial.IsNegative()
    requires AddsRows(db, d, o, s) && AddsBook(db, d, o, s) && w in d.wallets
    ensures BookAt(d, w)
  {
    hide ChainAt, Lined, Distinct, OpensFirst, Published, AddsBook;
    if w == o.walletId {
      NewBook(db, d, o, s);
    } else {
      assert BookAt(db, w);
      OtherBook(db, d, o, s, w);
    }
  }

  lemma OpenKeepsEntries(db: Database, d: Database, o: OpenInput, s: Stamp)
    requires forall id | id in db.txs && Moves(db.txs[id]) :: db.HasEntry(db.txs[id].walletId, id)
    requires forall id | id in db.txs :: db.txs[id].walletId in db.wallets && o.walletId !in db.wallets
    requires AddsRows(db, d, o, s) && AddsBook(db, d, o, s) && o.txId !in db.txs
    ensures forall id | id in d.txs && Moves(d.txs[id]) :: d.HasEntry(d.txs[id].walletId, id)
  {
    forall id | id in d.txs && Moves(d.txs[id])
      ensures d.HasEntry(d.txs[id].walletId, id)
    {
      if id in db.txs {
        assert db.HasEntry(db.txs[id].walletId, id);
      } else {
        assert d.Ledger(o.walletId)[0].transactionId == id;
      }
    }
  }

  /** Opening succeeds exactly when the use case's checks pass, and keeps the invariant. */
  lemma OpenKeeps(db: Database, o: OpenInput, s: Stamp)
    requires Inv(db, {}) && s.Usable() && o.walletId != NIL && o.txId != NIL && o.walletId != o.txId
    requires o.walletId !in db.txs && o.txId !in db.wallets && o.txId !in db.txs
    ensures Open(db, o, s).Success? <==> Openable(db, o, s)
    ensures Open(db, o, s).Success? ==> Open(db, o, s).value == Opened(db, o, s) && Inv(Opened(db, o, s), {})
  {
    OpenUnder(db, o, s);
    hide Identities, Indexed, Shapes, Reversals, Chains, Booked, Announced, Opened, AddsRows, AddsBook;
    if Openable(db, o, s) {
      var d := Opened(db, o, s);
      Unused(db, o, s);
      OpenedAdds(db, o, s);
      OpenKeepsIdentities(db, d, o, s);
      OpenKeepsIndexed(db, d, o, s);
      OpenKeepsShapes(db, d, o, s);
      OpenKeepsReversals(db, d, o, s);
      OpenKeepsBooks(db, d, o, s);
    }
  }

  lemma OpenUnder(db: Database, o: OpenInput, s: Stamp)
    requires Inv(db, {})
    ensures o.walletId !in db.wallets ==> !db.HasEntry(o.walletId, o.txId)
    ensures forall id | id in db.txs :: db.txs[id].walletId in db.wallets
  {
    hide Indexed, Shapes, Reversals, Chains, Booked, Announced;
  }
}

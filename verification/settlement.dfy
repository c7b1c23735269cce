/**
 Every landing keeps the invariant: from a state where the row is still open or parked to
 one where it is parked or settled for good.
 */
module Settlement {
  import opened Wrappers
  import opened Apperr
  import opened DomainMoney
  import opened DomainWagering
  import opened DomainWallet
  import opened DomainEvent
  import opened Postgres
  import opened AppProcess
  import opened AppResolve
  import opened Invariants

  /** The row may still land: it is the open one, or it is parked. */
  ghost predicate Landable(db: Database, tx: WagerTx, open: set<Id>) {
    && tx.id in db.txs && db.txs[tx.id] == tx
    && (tx.status == Pending || tx.status == PendingReference)
    && open == (if tx.status == Pending then {tx.id} else {})
  }

  /** Which landings the decision can produce for this row. */
  ghost predicate Justified(db: Database, tx: WagerTx, w: Wallet, l: Landing, s: Stamp) {
    match l
    case Parked => tx.status == Pending && tx.IsReversal() && Owned(w, tx)
    case Refused(_) => true
    case Kept => tx.kind == Loss && Owned(w, tx)
    case Moved(m, None) =>
      && Owned(w, tx) && (tx.kind == Bet || tx.kind == Win)
      && w.IsMovement(m, s.ids.entry, tx.id, if tx.kind == Bet then Debit else Credit, tx.amount, s.now)
    case Moved(m, Some(r)) =>
      && Owned(w, tx) && tx.IsReversal()
      && r in db.txs && db.txs[r].status == Processed && db.txs[r].origin == External
      && db.txs[r].externalId == tx.referenceExternalId
      && Mismatch(tx, db.txs[r]).None? && Reversible(tx, db.txs[r]) && !db.Reversed(r)
      && w.IsMovement(m, s.ids.entry, tx.id, if db.txs[r].kind == Bet then Credit else Debit, tx.amount, s.now)
    case Stopped(_) => false
  }

  /** The final row. */
  function FinalRow(tx: WagerTx, w: Wallet, l: Landing, now: int): WagerTx {
    match l
    case Parked => tx.(status := PendingReference, updatedAt := now)
    case Refused(code) =>
      tx.(status := Rejected, failureCode := Some(code), resultBalance := Some(w.balance.amountMinor), updatedAt := now)
    case Moved(m, reference) =>
      tx.(status := Processed, resultBalance := Some(m.wallet.balance.amountMinor), referenceId := reference, updatedAt := now)
    case _ =>
      tx.(status := Processed, resultBalance := Some(w.balance.amountMinor), referenceId := None, updatedAt := now)
  }

  function FinalRetries(db: Database, id: Id, l: Landing, s: Stamp): map<Id, Retry> {
    match l
    case Parked => db.retries[id := Retry(0, s.now + SECOND, s.now + s.ttl, s.now)]
    case Kept => db.retries
    case _ => db.retries - {id}
  }

  function FinalEvent(t: WagerTx, w: Wallet, l: Landing, s: Stamp): Envelope {
    match l
    case Parked => NewPendingReference(s.ids.event1, t, s.correlationId, s.now)
    case Refused(_) => NewRejected(s.ids.event1, t, s.correlationId, s.now)
    case _ => NewProcessed(s.ids.event1, t, BalanceAfter(w, l), s.correlationId, s.now)
  }

  function FinalOutbox(db: Database, t: WagerTx, w: Wallet, l: Landing, s: Stamp): map<Id, seq<Envelope>> {
    var own := db.outbox[t.id := db.Events(t.id) + [FinalEvent(t, w, l, s)]];
    match l
    case Moved(m, _) =>
      own[w.id := (if w.id in own then own[w.id] else []) +
                  [NewBalanceChanged(s.ids.event2, m.entry, m.wallet.version, s.correlationId, s.now)]]
    case _ => own
  }

  /** The tables after the landing, column by column. */
  function Outcome(db: Database, tx: WagerTx, w: Wallet, l: Landing, s: Stamp): Database {
    var t := FinalRow(tx, w, l, s.now);
    db.(txs := db.txs[tx.id := t],
        wallets := (match l case Moved(m, _) => db.wallets[w.id := m.wallet] case _ => db.wallets),
        ledger := (match l case Moved(m, _) => db.ledger[w.id := db.Ledger(w.id) + [m.entry]] case _ => db.ledger),
        reversalOf := (match l case Moved(_, Some(r)) => db.reversalOf[r := tx.id] case _ => db.reversalOf),
        retries := FinalRetries(db, tx.id, l, s),
        outbox := FinalOutbox(db, t, w, l, s))
  }

  /** A row that has not settled has no ledger line and no entry in the reversal index. */
  lemma Unrecorded(db: Database, tx: WagerTx, open: set<Id>)
    requires Identities(db) && Reversals(db) && Booked(db) && Landable(db, tx, open)
    ensures !db.HasEntry(tx.walletId, tx.id)
    ensures db.IndexWithout(tx.id) == db.reversalOf
  {
    var ls := db.Ledger(tx.walletId);
    forall i | 0 <= i < |ls|
      ensures ls[i].transactionId != tx.id
    {
      assert LineOfRow(db, tx.walletId, ls[i]);
    }
    forall r | r in db.reversalOf
      ensures db.reversalOf[r] != tx.id
    {
      assert ReversalEntry(db, r, db.reversalOf[r]);
    }
  }

  lemma MarkedIs(db: Database, tx: WagerTx, w: Wallet, l: Landing, s: Stamp, open: set<Id>)
    requires Landable(db, tx, open) && Justified(db, tx, w, l, s)
    requires tx.id != NIL && tx.walletId != NIL && tx.playerId != NIL && tx.referenceId.None?
    ensures Marked(tx, w, l, s.now) == Success(FinalRow(tx, w, l, s.now))
  {
  }

  /** Under the invariant a justified landing is never refused by a constraint. */
  lemma WriteSucceeds(db: Database, tx: WagerTx, w: Wallet, l: Landing, s: Stamp, open: set<Id>)
    requires Landable(db, tx, open) && tx.walletId == w.id && tx.id != w.id
    requires Justified(db, tx, w, l, s)
    requires !db.HasEntry(tx.walletId, tx.id) && db.IndexWithout(tx.id) == db.reversalOf
    requires Marked(tx, w, l, s.now) == Success(FinalRow(tx, w, l, s.now))
    ensures Write(db, tx, w, l, s) == Success(Outcome(db, tx, w, l, s))
  {
    hide Marked, Landable;
    match l {
      case Moved(m, reference) => WriteMoved(db, tx, w, m, reference, s, open);
      case _ => WriteStill(db, tx, w, l, s, open);
    }
  }

  lemma WriteStill(db: Database, tx: WagerTx, w: Wallet, l: Landing, s: Stamp, open: set<Id>)
    requires !l.Moved? && !l.Stopped?
    requires Landable(db, tx, open) && Justified(db, tx, w, l, s) && db.IndexWithout(tx.id) == db.reversalOf
    requires Marked(tx, w, l, s.now) == Success(FinalRow(tx, w, l, s.now))
    ensures Write(db, tx, w, l, s) == Success(Outcome(db, tx, w, l, s))
  {
    hide Marked;
    var t := FinalRow(tx, w, l, s.now);
    assert db.Overwritten(t) == t;
    assert db.Update(t) == Success(db.(txs := db.txs[tx.id := t]));
  }

  lemma WriteMoved(db: Database, tx: WagerTx, w: Wallet, m: Movement, reference: Option<Id>, s: Stamp, open: set<Id>)
    requires tx.walletId == w.id && tx.id != w.id
    requires Landable(db, tx, open) && Justified(db, tx, w, Moved(m, reference), s)
    requires !db.HasEntry(tx.walletId, tx.id) && db.IndexWithout(tx.id) == db.reversalOf
    requires Marked(tx, w, Moved(m, reference), s.now) == Success(FinalRow(tx, w, Moved(m, reference), s.now))
    ensures Write(db, tx, w, Moved(m, reference), s) == Success(Outcome(db, tx, w, Moved(m, reference), s))
  {
    hide Marked;
    var l := Moved(m, reference);
    var t := FinalRow(tx, w, l, s.now);
    var p := Posted(db, m);
    assert p.IndexWithout(tx.id) == db.reversalOf;
    assert p.Overwritten(t) == t;
    var u := p.(txs := p.txs[tx.id := t],
                reversalOf := (match reference case Some(r) => db.reversalOf[r := tx.id] case None => db.reversalOf));
    assert p.Update(t) == Success(u);
    assert m.entry.walletId == w.id && m.entry.transactionId == tx.id;
  }

  // ----- the invariant, part by part -----

  lemma OutcomeKeepsIdentities(db: Database, tx: WagerTx, w: Wallet, l: Landing, s: Stamp, open: set<Id>)
    requires Identities(db) && Landable(db, tx, open) && w == db.wallets[tx.walletId] && Justified(db, tx, w, l, s)
    ensures Identities(Outcome(db, tx, w, l, s))
  {
    hide Outcome, Justified, WalletRow, OwnerEntry;
    OutcomeDomains(db, tx, w, l, s);
    OutcomeWalletRows(db, tx, w, l, s);
    OutcomeOwners(db, tx, w, l, s);
  }

  lemma OutcomeWalletRows(db: Database, tx: WagerTx, w: Wallet, l: Landing, s: Stamp)
    requires Justified(db, tx, w, l, s) && w.id in db.wallets && w == db.wallets[w.id]
    requires forall id | id in db.wallets :: db.wallets[id].id == id && WalletRow(db, db.wallets[id])
    ensures var d := Outcome(db, tx, w, l, s);
      forall id | id in d.wallets :: d.wallets[id].id == id && WalletRow(d, d.wallets[id])
  {
    hide FinalRetries, FinalOutbox, FinalRow;
    assert WalletRow(db, w);
    var d := Outcome(db, tx, w, l, s);
    assert d.owners == db.owners;
    forall id | id in d.wallets
      ensures d.wallets[id].id == id && WalletRow(d, d.wallets[id])
    {
      if id != w.id {
        assert WalletRow(db, db.wallets[id]);
      }
    }
  }

  lemma OutcomeOwners(db: Database, tx: WagerTx, w: Wallet, l: Landing, s: Stamp)
    requires Justified(db, tx, w, l, s) && w.id in db.wallets && w == db.wallets[w.id]
    requires forall k | k in db.owners :: OwnerEntry(db, k, db.owners[k])
    ensures var d := Outcome(db, tx, w, l, s); forall k | k in d.owners :: OwnerEntry(d, k, d.owners[k])
  {
    hide FinalRetries, FinalOutbox, FinalRow;
    var d := Outcome(db, tx, w, l, s);
    forall k | k in d.owners
      ensures OwnerEntry(d, k, d.owners[k])
    {
      assert OwnerEntry(db, k, db.owners[k]);
    }
  }

  lemma OutcomeDomains(db: Database, tx: WagerTx, w: Wallet, l: Landing, s: Stamp)
    requires tx.id in db.txs && w.id in db.wallets && Justified(db, tx, w, l, s) && w == db.wallets[w.id]
    ensures var d := Outcome(db, tx, w, l, s);
      && d.txs.Keys == db.txs.Keys && d.wallets.Keys == db.wallets.Keys
      && d.ledger.Keys <= db.ledger.Keys + {w.id}
      && d.retries.Keys <= db.retries.Keys + {tx.id}
      && d.outbox.Keys <= db.outbox.Keys + {tx.id, w.id}
      && (forall id | id in db.txs && id != tx.id :: d.txs[id] == db.txs[id])
      && d.txs[tx.id] == tx.(status := d.txs[tx.id].status, failureCode := d.txs[tx.id].failureCode,
           resultBalance := d.txs[tx.id].resultBalance, referenceId := d.txs[tx.id].referenceId, updatedAt := s.now)
  {
  }

  lemma OutcomeKeepsIndexed(db: Database, tx: WagerTx, w: Wallet, l: Landing, s: Stamp, open: set<Id>)
    requires db.Keyed() && Indexed(db) && Landable(db, tx, open)
    ensures Indexed(Outcome(db, tx, w, l, s))
  {
    hide FinalRetries, FinalOutbox;
    var d := Outcome(db, tx, w, l, s);
    forall id | id in d.txs && d.txs[id].origin == External
      ensures RowIndexed(d, d.txs[id])
    {
      assert RowIndexed(db, db.txs[id]);
    }
    forall k | k in d.byExternal
      ensures ExternalEntry(d, k, d.byExternal[k])
    {
      assert ExternalEntry(db, k, db.byExternal[k]);
    }
    forall k | k in d.byKey
      ensures KeyEntry(d, k, d.byKey[k])
    {
      assert KeyEntry(db, k, db.byKey[k]);
    }
  }

  lemma OutcomeKeepsShapes(db: Database, tx: WagerTx, w: Wallet, l: Landing, s: Stamp, open: set<Id>)
    requires Identities(db) && Shapes(db, open) && Landable(db, tx, open)
    requires w == db.wallets[tx.walletId] && Justified(db, tx, w, l, s)
    requires Identities(Outcome(db, tx, w, l, s))
    ensures Shapes(Outcome(db, tx, w, l, s), {})
  {
    var d := Outcome(db, tx, w, l, s);
    forall id | id in d.txs
      ensures Shape(d, d.txs[id], {})
    {
      assert Shape(db, db.txs[id], open);
      if id == tx.id {
        OwnShape(db, tx, w, l, s, open);
      } else {
        OtherShape(db, tx, w, l, s, open, id);
      }
    }
  }

  lemma OwnShape(db: Database, tx: WagerTx, w: Wallet, l: Landing, s: Stamp, open: set<Id>)
    requires Landable(db, tx, open) && tx.walletId == w.id && w.id in db.wallets && w == db.wallets[w.id] && tx.id != w.id
    requires Shape(db, tx, open) && Justified(db, tx, w, l, s)
    ensures var d := Outcome(db, tx, w, l, s); tx.walletId in d.wallets && Shape(d, d.txs[tx.id], {})
  {
    var d := Outcome(db, tx, w, l, s);
    var t := FinalRow(tx, w, l, s.now);
    assert d.Events(tx.id) == db.Events(tx.id) + [FinalEvent(t, w, l, s)];
    assert Owned(d.wallets[w.id], t) == Owned(w, tx);
  }

  lemma OtherShape(db: Database, tx: WagerTx, w: Wallet, l: Landing, s: Stamp, open: set<Id>, id: Id)
    requires Landable(db, tx, open) && tx.walletId == w.id && w.id in db.wallets && w == db.wallets[w.id]
    requires id in db.txs && db.txs[id].id == id && id != tx.id && id != w.id && db.txs[id].walletId in db.wallets
    requires Shape(db, db.txs[id], open) && Justified(db, tx, w, l, s)
    ensures var d := Outcome(db, tx, w, l, s); d.txs[id].walletId in d.wallets && Shape(d, d.txs[id], {})
  {
    var d := Outcome(db, tx, w, l, s);
    var t := db.txs[id];
    assert d.Events(id) == db.Events(id);
    assert Owned(d.wallets[t.walletId], t) == Owned(db.wallets[t.walletId], t);
    assert id in d.retries <==> id in db.retries;
    assert id in db.retries ==> d.retries[id] == db.retries[id];
  }

  /** A landing that moves no money touches neither wallets nor ledger nor the reversal index. */
  lemma StillKeepsBooks(db: Database, tx: WagerTx, w: Wallet, l: Landing, s: Stamp, open: set<Id>)
    requires Identities(db) && Reversals(db) && Chains(db) && Booked(db) && Announced(db)
    requires Landable(db, tx, open) && w == db.wallets[tx.walletId] && Justified(db, tx, w, l, s) && !l.Moved?
    ensures var d := Outcome(db, tx, w, l, s); Reversals(d) && Chains(d) && Booked(d) && Announced(d)
  {
    var d := Outcome(db, tx, w, l, s);
    StillSettlesNothing(db, tx, w, l, s, open);
    hide *;
    ReversalsFrame(db, d);
    BooksFrame(db, d);
    AnnouncedFrame(db, d);
  }

  lemma StillSettlesNothing(db: Database, tx: WagerTx, w: Wallet, l: Landing, s: Stamp, open: set<Id>)
    requires Identities(db) && Landable(db, tx, open) && w == db.wallets[tx.walletId]
    requires Justified(db, tx, w, l, s) && !l.Moved?
    ensures var d := Outcome(db, tx, w, l, s);
      && SameSettled(db, d) && d.reversalOf == db.reversalOf && d.wallets == db.wallets && d.ledger == db.ledger
      && (forall id | id in db.txs :: db.txs[id].walletId in db.wallets)
      && (forall id | id in db.wallets :: d.Events(id) == db.Events(id))
  {
    StillRowSettles(db, tx, w, l, s, open);
    hide Justified, FinalRetries, FinalRow, FinalEvent, SameSettled, WalletRow;
  }

  lemma StillRowSettles(db: Database, tx: WagerTx, w: Wallet, l: Landing, s: Stamp, open: set<Id>)
    requires Landable(db, tx, open) && Justified(db, tx, w, l, s) && !l.Moved?
    ensures var d := Outcome(db, tx, w, l, s);
      && SameSettled(db, d) && d.reversalOf == db.reversalOf && d.wallets == db.wallets && d.ledger == db.ledger
      && FinalRow(tx, w, l, s.now).id == tx.id
  {
    hide FinalRetries, FinalOutbox;
  }

  // ----- a movement -----

  /** d is db with one movement posted for tx. */
  ghost predicate Movement1(db: Database, d: Database, tx: WagerTx, w: Wallet, m: Movement, reference: Option<Id>) {
    && tx.id in db.txs && w.id in db.wallets && tx.id in d.txs && tx.id != w.id
    && db.txs[tx.id] == tx && tx.status != Processed && db.wallets[w.id] == w && tx.walletId == w.id
    && d.txs == db.txs[tx.id := d.txs[tx.id]]
    && d.txs[tx.id] == tx.(status := Processed, resultBalance := Some(m.wallet.balance.amountMinor),
                           referenceId := reference, updatedAt := d.txs[tx.id].updatedAt)
    && d.wallets == db.wallets[w.id := m.wallet]
    && d.reversalOf == (match reference case Some(r) => db.reversalOf[r := tx.id] case None => db.reversalOf)
    && m.wallet.id == w.id && m.wallet.version == w.version + 1
    && m.entry.transactionId == tx.id
    && w.IsMovement(m, m.entry.id, tx.id, m.entry.direction, m.entry.amount, m.entry.createdAt)
  }

  ghost predicate Movement2(db: Database, d: Database, w: Wallet, m: Movement) {
    && (forall id | id in db.wallets :: d.Ledger(id) == db.Ledger(id) + (if id == w.id then [m.entry] else []))
    && (forall id | id in db.wallets && id != w.id :: d.Events(id) == db.Events(id))
    && |d.Events(w.id)| == |db.Events(w.id)| + 1
    && d.Events(w.id)[..|db.Events(w.id)|] == db.Events(w.id)
    && d.Events(w.id)[|db.Events(w.id)|].data == ChangedData(m.entry, m.wallet.version)
  }

  /** The row, if any, that the movement reverses. */
  ghost predicate Reversing(db: Database, tx: WagerTx, m: Movement, reference: Option<Id>) {
    && m.entry.amount == tx.amount
    && match reference
       case None =>
         && (tx.kind == Bet || tx.kind == Win)
         && m.entry.direction == (if tx.kind == Bet then Debit else Credit)
       case Some(r) =>
         && tx.IsReversal()
         && r in db.txs && db.txs[r].status == Processed && db.txs[r].origin == External
         && db.txs[r].externalId == tx.referenceExternalId
         && Mismatch(tx, db.txs[r]).None? && Reversible(tx, db.txs[r]) && r !in db.reversalOf
         && m.entry.direction == (if db.txs[r].kind == Bet then Credit else Debit)
  }

  lemma OutcomeMoves(db: Database, tx: WagerTx, w: Wallet, l: Landing, s: Stamp, open: set<Id>)
    requires l.Moved? && Landable(db, tx, open) && Justified(db, tx, w, l, s)
    requires tx.walletId == w.id && w.id in db.wallets && w == db.wallets[w.id] && tx.id != w.id && tx.id !in db.wallets
    ensures var d := Outcome(db, tx, w, l, s);
      && Movement1(db, d, tx, w, l.movement, l.reference)
      && Movement2(db, d, w, l.movement)
      && Reversing(db, tx, l.movement, l.reference)
  {
    var d := Outcome(db, tx, w, l, s);
    var m := l.movement;
    hide FinalRetries, FinalEvent;
    assert d.Events(w.id) == db.Events(w.id) +
      [NewBalanceChanged(s.ids.event2, m.entry, m.wallet.version, s.correlationId, s.now)];
  }

  lemma MovedKeepsReversals(db: Database, d: Database, tx: WagerTx, w: Wallet, m: Movement, reference: Option<Id>)
    requires Movement1(db, d, tx, w, m, reference) && Reversing(db, tx, m, reference)
    requires db.Keyed() && Reversals(db)
    ensures Reversals(d)
  {
    forall id | id in d.txs && d.txs[id].status == Processed && d.txs[id].referenceId.Some?
      ensures Reverses(d, d.txs[id])
    {
      if id != tx.id {
        assert Reverses(db, db.txs[id]);
      }
    }
    forall r | r in d.reversalOf
      ensures ReversalEntry(d, r, d.reversalOf[r])
    {
      if reference != Some(r) {
        assert ReversalEntry(db, r, db.reversalOf[r]);
      }
    }
  }

  /** The new line starts at the old balance and ends at the new one. */
  lemma MovedKeepsChains(db: Database, d: Database, tx: WagerTx, w: Wallet, m: Movement, reference: Option<Id>)
    requires Movement1(db, d, tx, w, m, reference) && Movement2(db, d, w, m)
    requires Chains(db) && tx.kind != Opening
    requires forall v | v in db.wallets :: Lined(db, v)
    ensures Chains(d)
  {
    forall id | id in d.wallets
      ensures ChainAt(d, id)
    {
      assert Lined(db, id) && ChainAt(db, id);
      hide ChainAt, Lined;
      ChainMoves(db, d, tx, w, m, reference, id);
    }
  }

  lemma ChainMoves(db: Database, d: Database, tx: WagerTx, w: Wallet, m: Movement, reference: Option<Id>, id: Id)
    requires Movement1(db, d, tx, w, m, reference) && Movement2(db, d, w, m) && tx.kind != Opening
    requires id in db.wallets && ChainAt(db, id) && Lined(db, id)
    ensures ChainAt(d, id)
  {
    hide Lined, OpenedByLine, Chain;
    OpeningStays(db, d, tx, w, m, reference, id);
    assert d.Ledger(id) == db.Ledger(id) + (if id == w.id then [m.entry] else []);
    assert d.wallets[id] == if id == w.id then m.wallet else db.wallets[id];
    if id == w.id {
      assert w.IsMovement(m, m.entry.id, m.entry.transactionId, m.entry.direction, m.entry.amount, m.entry.createdAt);
      ChainGrows(db.Ledger(id), w, m);
    } else {
      assert d.Ledger(id) == db.Ledger(id);
    }
  }

  lemma OpeningStays(db: Database, d: Database, tx: WagerTx, w: Wallet, m: Movement, reference: Option<Id>, id: Id)
    requires Movement1(db, d, tx, w, m, reference) && Movement2(db, d, w, m) && tx.kind != Opening && id in db.wallets
    requires Lined(db, id)
    ensures OpenedByLine(d, d.Ledger(id)) == OpenedByLine(db, db.Ledger(id))
  {
    if |db.Ledger(id)| > 0 {
      assert LineOfRow(db, id, db.Ledger(id)[0]);
      assert d.Ledger(id)[0] == db.Ledger(id)[0];
    }
  }

  lemma ChainGrows(ls: seq<LedgerEntry>, w: Wallet, m: Movement)
    requires Chain(ls, w)
    requires w.IsMovement(m, m.entry.id, m.entry.transactionId, m.entry.direction, m.entry.amount, m.entry.createdAt)
    ensures Chain(ls + [m.entry], m.wallet)
  {
    var all := ls + [m.entry];
    forall i | 0 <= i < |all|
      ensures all[i].Sound() && all[i].walletId == w.id && all[i].amount.currency == w.balance.currency
      ensures all[i].balanceBefore.amountMinor == EndOf(all, i)
    {
      assert EndOf(all, i) == EndOf(ls, i);
      assert i < |ls| ==> all[i] == ls[i];
    }
  }

  /** The settled row gets its one line, and keeps every other row's. */
  lemma MovedKeepsBooked(db: Database, d: Database, tx: WagerTx, w: Wallet, m: Movement, reference: Option<Id>)
    requires Movement1(db, d, tx, w, m, reference) && Movement2(db, d, w, m) && Reversing(db, tx, m, reference)
    requires Booked(db) && Reversals(db) && db.Keyed()
    requires forall id | id in db.txs :: db.txs[id].walletId in db.wallets
    ensures Booked(d)
  {
    forall id | id in d.wallets
      ensures Lined(d, id) && Distinct(d.Ledger(id)) && OpensFirst(d, d.Ledger(id))
    {
      assert Lined(db, id) && Distinct(db.Ledger(id)) && OpensFirst(db, db.Ledger(id));
      BookGrows(db, d, tx, w, m, reference, id);
    }
    hide Lined, Distinct, OpensFirst;
    forall id | id in d.txs && Moves(d.txs[id])
      ensures d.HasEntry(d.txs[id].walletId, id)
    {
      KeepsEntry(db, d, tx, w, m, reference, id);
    }
  }

  lemma BookGrows(db: Database, d: Database, tx: WagerTx, w: Wallet, m: Movement, reference: Option<Id>, id: Id)
    requires Movement1(db, d, tx, w, m, reference) && Movement2(db, d, w, m) && Reversing(db, tx, m, reference)
    requires Reversals(db) && db.Keyed() && id in db.wallets
    requires Lined(db, id) && Distinct(db.Ledger(id)) && OpensFirst(db, db.Ledger(id))
    ensures Lined(d, id) && Distinct(d.Ledger(id)) && OpensFirst(d, d.Ledger(id))
  {
    forall i | 0 <= i < |db.Ledger(id)|
      ensures LineOfRow(d, id, db.Ledger(id)[i]) && db.Ledger(id)[i].transactionId != tx.id
      ensures d.txs[db.Ledger(id)[i].transactionId] == db.txs[db.Ledger(id)[i].transactionId]
    {
      OldLine(db, d, tx, w, m, reference, id, db.Ledger(id)[i]);
    }
    NewLine(db, d, tx, w, m, reference);
    assert m.entry.transactionId == tx.id;
    assert d.Ledger(id) == db.Ledger(id) + (if id == w.id then [m.entry] else []);
    hide Movement1, Movement2, Reversing, LineOfRow, Reversals;
  }

  lemma KeepsEntry(db: Database, d: Database, tx: WagerTx, w: Wallet, m: Movement, reference: Option<Id>, id: Id)
    requires Movement1(db, d, tx, w, m, reference) && Movement2(db, d, w, m)
    requires forall id | id in db.txs && Moves(db.txs[id]) :: db.HasEntry(db.txs[id].walletId, id)
    requires forall id | id in db.txs :: db.txs[id].walletId in db.wallets
    requires id in d.txs && Moves(d.txs[id])
    ensures d.HasEntry(d.txs[id].walletId, id)
  {
    if id == tx.id {
      assert d.Ledger(w.id)[|db.Ledger(w.id)|] == m.entry;
    } else {
      var v := db.txs[id].walletId;
      assert db.HasEntry(v, id);
      var i :| 0 <= i < |db.Ledger(v)| && db.Ledger(v)[i].transactionId == id;
      assert d.Ledger(v)[i].transactionId == id;
    }
  }

  lemma NewLine(db: Database, d: Database, tx: WagerTx, w: Wallet, m: Movement, reference: Option<Id>)
    requires Movement1(db, d, tx, w, m, reference) && Reversing(db, tx, m, reference)
    ensures LineOfRow(d, w.id, m.entry) && d.txs[tx.id].kind == tx.kind != Opening
  {
  }

  lemma OldLine(db: Database, d: Database, tx: WagerTx, w: Wallet, m: Movement, reference: Option<Id>, id: Id,
                line: LedgerEntry)
    requires Movement1(db, d, tx, w, m, reference) && Reversals(db) && db.Keyed() && LineOfRow(db, id, line)
    ensures LineOfRow(d, id, line) && line.transactionId != tx.id
    ensures d.txs[line.transactionId] == db.txs[line.transactionId]
  {
    var t := db.txs[line.transactionId];
    assert t.referenceId.Some? ==> Reverses(db, t);
  }

  /** The new line gets its one event, carrying the new version. */
  lemma MovedKeepsAnnounced(db: Database, d: Database, tx: WagerTx, w: Wallet, m: Movement, reference: Option<Id>)
    requires Movement1(db, d, tx, w, m, reference) && Movement2(db, d, w, m) && Announced(db)
    ensures Announced(d)
  {
    hide Published;
    assert Published(db.Events(w.id), db.Ledger(w.id), w.version);
    PublishedGrows(db.Events(w.id), db.Ledger(w.id), w.version, d.Events(w.id), m.entry);
    forall id | id in d.wallets
      ensures Published(d.Events(id), d.Ledger(id), d.wallets[id].version)
    {
      assert Published(db.Events(id), db.Ledger(id), db.wallets[id].version);
      if id != w.id {
        assert d.Ledger(id) == db.Ledger(id);
      }
    }
  }

  lemma PublishedGrows(es: seq<Envelope>, ls: seq<LedgerEntry>, version: int, after: seq<Envelope>, line: LedgerEntry)
    requires Published(es, ls, version) && |after| == |es| + 1 && after[..|es|] == es
    requires after[|es|].data == ChangedData(line, version + 1)
    ensures Published(after, ls + [line], version + 1)
  {
    forall i | 0 <= i < |ls| + 1
      ensures after[i].data == ChangedData((ls + [line])[i], version + 1 - (|ls| - i))
    {
      assert i < |es| ==> after[i] == after[..|es|][i];
    }
  }

  // ----- all together -----

  /** Any justified landing succeeds and leaves the invariant with nothing open. */
  lemma LandingKeeps(db: Database, tx: WagerTx, w: Wallet, l: Landing, s: Stamp, open: set<Id>)
    requires Inv(db, open) && Landable(db, tx, open) && w == db.wallets[tx.walletId] && Justified(db, tx, w, l, s)
    ensures Write(db, tx, w, l, s) == Success(Outcome(db, tx, w, l, s))
    ensures Inv(Outcome(db, tx, w, l, s), {})
  {
    Unlanded(db, tx, w, open);
    hide Identities, Indexed, Shapes, Reversals, Chains, Booked, Announced, Justified, Outcome, Write, Marked, FinalRow;
    hide Movement1, Movement2, Reversing;
    Unrecorded(db, tx, open);
    MarkedIs(db, tx, w, l, s, open);
    WriteSucceeds(db, tx, w, l, s, open);
    OutcomeKeepsIdentities(db, tx, w, l, s, open);
    OutcomeKeepsIndexed(db, tx, w, l, s, open);
    OutcomeKeepsShapes(db, tx, w, l, s, open);
    if l.Moved? {
      var d, m := Outcome(db, tx, w, l, s), l.movement;
      MovedIsNoLoss(db, tx, w, l, s);
      OutcomeMoves(db, tx, w, l, s, open);
      MovedKeepsReversals(db, d, tx, w, m, l.reference);
      MovedKeepsChains(db, d, tx, w, m, l.reference);
      MovedKeepsBooked(db, d, tx, w, m, l.reference);
      MovedKeepsAnnounced(db, d, tx, w, m, l.reference);
    } else {
      StillKeepsBooks(db, tx, w, l, s, open);
    }
  }

  lemma MovedIsNoLoss(db: Database, tx: WagerTx, w: Wallet, l: Landing, s: Stamp)
    requires l.Moved? && Justified(db, tx, w, l, s)
    ensures tx.kind != Loss && tx.kind != Opening && !tx.kind.Unknown?
  {
  }

  /** What the invariant says of a row that may still land. */
  lemma Unlanded(db: Database, tx: WagerTx, w: Wallet, open: set<Id>)
    requires Inv(db, open) && Landable(db, tx, open) && w == db.wallets[tx.walletId]
    ensures tx.id != NIL && tx.walletId != NIL && tx.playerId != NIL && db.Keyed()
    ensures tx.walletId == w.id && w.id in db.wallets && tx.id != w.id && tx.id !in db.wallets
    ensures forall id | id in db.txs :: db.txs[id].walletId in db.wallets
    ensures tx.referenceId.None? && tx.failureCode.None? && tx.resultBalance.None?
    ensures forall v | v in db.wallets :: Lined(db, v)
  {
    hide Indexed, Reversals, Chains, Announced;
    assert Shape(db, tx, open);
  }
}

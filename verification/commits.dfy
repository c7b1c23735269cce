/** What every commit owes to the tables before it. */
module Commits {
  import opened Wrappers
  import opened Apperr
  import opened DomainMoney
  import opened DomainWagering
  import opened DomainWallet
  import opened DomainEvent
  import opened Postgres
  import opened AppProcess
  import opened AppResolve
  import opened Invariants
  import opened Settlement
  import opened Runs
  import opened History
  import opened Replays
  import opened Conservation

  /** The invariant holds, nothing is taken back, balances stay worth their history, hashes stay the rows'. */
  ghost predicate Faithful(db: Database, d: Database) {
    Inv(d, {}) && Evolves(db, d) && (Conserved(db) ==> Conserved(d)) && (Hashed(db) ==> Hashed(d))
  }

  lemma HashedWith(db: Database, d: Database, own: Id)
    requires Hashed(db) && RowsForward(db, d)
    requires forall id | id in d.txs && id != own :: id in db.txs
    requires own in d.txs ==> RowHashed(d.txs[own])
    ensures Hashed(d)
  {
    forall id | id in d.txs
      ensures RowHashed(d.txs[id])
    {
      if id != own {
        assert RowForward(db.txs[id], d.txs[id]) && RowHashed(db.txs[id]);
      }
    }
  }

  /** The final row carries the hash of the row it came from. */
  lemma FinalRowHashed(db: Database, tx: WagerTx, w: Wallet, l: Landing, s: Stamp)
    requires RowHashed(tx)
    ensures var d := Outcome(db, tx, w, l, s);
      && tx.id in d.txs && RowHashed(d.txs[tx.id]) && (forall id | id in d.txs && id != tx.id :: id in db.txs)
  {
    hide FinalRetries, FinalOutbox;
  }

  /** A new row's landing. */
  lemma NewRowIsFaithful(db: Database, tx: WagerTx, w: Wallet, l: Landing, s: Stamp)
    requires Inv(db, {}) && Enterable(db, tx) && RowHashed(tx) && w == db.wallets[tx.walletId]
    requires Justified(db.Insert(tx), tx, w, l, s)
    ensures Faithful(db, Outcome(db.Insert(tx), tx, w, l, s))
  {
    hide Inv, Justified, Outcome, Evolves, Conserved, Hashed, RowHashed, Identities, Indexed;
    var e := db.Insert(tx);
    var d := Outcome(e, tx, w, l, s);
    InsertKeeps(db, tx);
    InvKeys(e, {tx.id});
    InvForward(db);
    LandingKeeps(e, tx, w, l, s, {tx.id});
    InsertForward(db, tx);
    OutcomeForward(e, tx, w, l, s, {tx.id});
    EvolvesTransitive(db, e, d);
    if Conserved(db) {
      InsertConserves(db, tx);
      LandingConserves(e, tx, w, l, s, {tx.id});
    }
    if Hashed(db) {
      FinalRowHashed(e, tx, w, l, s);
      RowsOf(db, d);
      HashedWith(db, d, tx.id);
    }
  }

  lemma RowsOf(db: Database, d: Database)
    requires Evolves(db, d)
    ensures RowsForward(db, d)
  {
    hide RowsForward, WalletsForward, RetriesForward, IndexesForward, LogsForward;
  }

  /** A parked row's landing. */
  lemma ParkedRowIsFaithful(db: Database, tx: WagerTx, w: Wallet, l: Landing, s: Stamp)
    requires Inv(db, {}) && Landable(db, tx, {}) && w == db.wallets[tx.walletId] && Justified(db, tx, w, l, s)
    ensures Faithful(db, Outcome(db, tx, w, l, s))
  {
    hide Inv, Justified, Outcome, Evolves, Conserved, RowHashed, Identities, Indexed;
    var d := Outcome(db, tx, w, l, s);
    InvKeys(db, {});
    LandingKeeps(db, tx, w, l, s, {});
    OutcomeForward(db, tx, w, l, s, {});
    if Conserved(db) {
      LandingConserves(db, tx, w, l, s, {});
    }
    if Hashed(db) {
      FinalRowHashed(db, tx, w, l, s);
      RowsOf(db, d);
      HashedWith(db, d, tx.id);
    }
  }

  /** Another attempt. */
  lemma AgainIsFaithful(db: Database, id: Id, now: int)
    requires Inv(db, {}) && id in db.retries && db.retries[id].attempts >= 0
    ensures Faithful(db, db.(retries := db.retries[id := Rescheduled(db.retries[id], now)]))
  {
    hide Inv, Evolves, Conserved;
    var retries := db.retries[id := Rescheduled(db.retries[id], now)];
    InvForward(db);
    RetriesKeep(db, retries);
    RetriesOnlyForward(db, retries);
    if Conserved(db) {
      SameRowsConserve(db, db.(retries := retries));
    }
  }

  /** A whole step. */
  lemma StepIsFaithful(db: Database, step: Step)
    requires Inv(db, {}) && Admissible(db, step)
    ensures Faithful(db, Next(db, step))
  {
    hide Inv, Evolves, Conserved, Hashed, Next, Admissible;
    StepKeeps(db, step);
    StepForward(db, step);
    if Conserved(db) {
      StepConserves(db, step);
    }
    if Hashed(db) {
      HashedStep(db, step);
    }
  }

  /** Commits add up. */
  lemma FaithfulTransitive(a: Database, b: Database, c: Database)
    requires Faithful(a, b) && Faithful(b, c)
    ensures Faithful(a, c)
  {
    hide Inv, Evolves, Conserved, Hashed;
    EvolvesTransitive(a, b, c);
  }
}

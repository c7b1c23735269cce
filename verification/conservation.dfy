/**
 Conservation: what a wallet holds is what its history is worth. An opening and an
 unreversed WIN count for, a BET counts against unless it was given back, and a refund
 that was itself rolled back gives nothing back.
 */
module Conservation {
  import opened Wrappers
  import opened Apperr
  import opened DomainMoney
  import opened DomainWagering
  import opened DomainWallet
  import opened DomainEvent
  import opened Postgres
  import opened AppProcess
  import opened AppResolve
  import opened AppOpen
  import opened Invariants
  import opened Settlement
  import opened Openings
  import opened Runs
  import opened Replays

  // ----- sums over rows -----

  ghost function Total(m: map<Id, int>): int
    decreases |m|
  {
    if m == map[] then 0 else var k :| k in m; m[k] + Total(m - {k})
  }

  /** Any key may be taken out first. */
  lemma {:induction false} TotalWithout(m: map<Id, int>, k: Id)
    requires k in m
    ensures Total(m) == m[k] + Total(m - {k})
    decreases |m|
  {
    var j :| j in m && Total(m) == m[j] + Total(m - {j});
    if j != k {
      TotalWithout(m - {j}, k);
      TotalWithout(m - {k}, j);
      assert m - {j} - {k} == m - {k} - {j};
    }
  }

  lemma TotalWith(m: map<Id, int>, k: Id, v: int)
    ensures Total(m[k := v]) == Total(m) - (if k in m then m[k] else 0) + v
  {
    TotalWithout(m[k := v], k);
    assert m[k := v] - {k} == m - {k};
    if k in m {
      TotalWithout(m, k);
    } else {
      assert m - {k} == m;
    }
  }

  // ----- what a row is worth -----

  /** The reversal of this row was itself rolled back. */
  predicate GivenBackAgain(reversalOf: map<Id, Id>, id: Id) {
    id in reversalOf && reversalOf[id] in reversalOf
  }

  function Worth(reversalOf: map<Id, Id>, t: WagerTx): int {
    if t.status != Processed then 0
    else
      match t.kind
      case Opening => t.amount.amountMinor
      case Win => if t.id in reversalOf then 0 else t.amount.amountMinor
      case Bet => if t.id in reversalOf && !GivenBackAgain(reversalOf, t.id) then 0 else -(t.amount.amountMinor as int)
      case _ => 0
  }

  function Worths(db: Database, walletId: Id): map<Id, int> {
    map id | id in db.txs && db.txs[id].walletId == walletId :: Worth(db.reversalOf, db.txs[id])
  }

  /** The balance of a wallet is the total worth of its rows. */
  ghost predicate ConservedAt(db: Database, walletId: Id)
    requires walletId in db.wallets
  {
    db.wallets[walletId].balance.amountMinor == Total(Worths(db, walletId))
  }

  ghost predicate Conserved(db: Database) {
    forall id | id in db.wallets :: ConservedAt(db, id)
  }

  // ----- the shape of reversal chains -----

  /** An entry of the reversal index joins two processed rows of one wallet and one amount. */
  ghost predicate Pair(db: Database, r: Id, rev: Id) {
    && r in db.txs && db.txs[r].status == Processed && rev in db.txs && db.txs[rev].status == Processed
    && db.txs[rev].referenceId == Some(r)
    && db.txs[rev].walletId == db.txs[r].walletId && db.txs[rev].amount == db.txs[r].amount
    && (match db.txs[rev].kind
        case Refund => db.txs[r].kind == Bet
        case Rollback => db.txs[r].kind in {Bet, Win, Refund}
        case _ => false)
    && (db.txs[r].kind == Refund ==>
          db.txs[r].referenceId.Some? && db.txs[r].referenceId.value in db.reversalOf &&
          db.reversalOf[db.txs[r].referenceId.value] == r)
  }

  ghost predicate Pairs(db: Database) {
    forall r | r in db.reversalOf :: Pair(db, r, db.reversalOf[r])
  }

  /** A processed row names a reference exactly when it is a reversal. */
  ghost predicate Referring(db: Database) {
    forall id | id in db.txs && db.txs[id].status == Processed :: db.txs[id].referenceId.Some? <==> db.txs[id].IsReversal()
  }

  lemma ProcessedRefer(db: Database, open: set<Id>)
    requires Inv(db, open)
    ensures Referring(db) && Reversals(db) && db.Keyed()
  {
    hide Indexed, Chains, Booked, Announced, Reversals, SettledEvents;
    forall id | id in db.txs && db.txs[id].status == Processed
      ensures db.txs[id].referenceId.Some? <==> db.txs[id].IsReversal()
    {
      assert Shape(db, db.txs[id], open);
    }
  }

  lemma IndexPairs(db: Database, open: set<Id>)
    requires Inv(db, open)
    ensures Pairs(db)
  {
    hide Inv, Pair;
    ProcessedRefer(db, open);
    forall r | r in db.reversalOf
      ensures Pair(db, r, db.reversalOf[r])
    {
      IndexPair(db, r);
    }
  }

  lemma IndexPair(db: Database, r: Id)
    requires Referring(db) && Reversals(db) && db.Keyed() && r in db.reversalOf
    ensures Pair(db, r, db.reversalOf[r])
  {
    assert ReversalEntry(db, r, db.reversalOf[r]);
    assert Reverses(db, db.txs[db.reversalOf[r]]);
    assert db.txs[r].kind == Refund ==> Reverses(db, db.txs[r]);
  }

  /**
   Chains are BET <- REFUND <- ROLLBACK, BET <- ROLLBACK, WIN <- ROLLBACK and their prefixes:
   a processed reversal names one processed row of the same provider, player, wallet, round
   and amount; nothing reverses a ROLLBACK; a REFUND, rolled back or not, gave back a BET.
   */
  lemma ChainShape(db: Database, open: set<Id>, id: Id)
    requires Inv(db, open) && id in db.txs && db.txs[id].status == Processed && db.txs[id].IsReversal()
    ensures db.txs[id].referenceId.Some? && db.txs[id].referenceId.value in db.txs
    ensures var t, ref := db.txs[id], db.txs[db.txs[id].referenceId.value];
      && ref.status == Processed && ref.amount == t.amount && ref.walletId == t.walletId && ref.playerId == t.playerId
      && ref.providerId == t.providerId && ref.roundId == t.roundId && ref.externalId == t.referenceExternalId
      && ref.id in db.reversalOf && db.reversalOf[ref.id] == id
      && (t.kind == Refund ==> ref.kind == Bet)
      && (t.kind == Rollback ==> ref.kind in {Bet, Win, Refund} && !db.Reversed(id))
      && (ref.kind == Refund ==>
            ref.referenceId.Some? && ref.referenceId.value in db.txs &&
            db.txs[ref.referenceId.value].kind == Bet && db.txs[ref.referenceId.value].amount == t.amount)
  {
    ProcessedRefer(db, open);
    IndexPairs(db, open);
    ChainHere(db, id);
  }

  lemma ChainHere(db: Database, id: Id)
    requires Referring(db) && Reversals(db) && Pairs(db) && db.Keyed()
    requires id in db.txs && db.txs[id].status == Processed && db.txs[id].IsReversal()
    ensures db.txs[id].referenceId.Some? && db.txs[id].referenceId.value in db.txs
    ensures var t, ref := db.txs[id], db.txs[db.txs[id].referenceId.value];
      && ref.status == Processed && ref.amount == t.amount && ref.walletId == t.walletId && ref.playerId == t.playerId
      && ref.providerId == t.providerId && ref.roundId == t.roundId && ref.externalId == t.referenceExternalId
      && ref.id in db.reversalOf && db.reversalOf[ref.id] == id
      && (t.kind == Refund ==> ref.kind == Bet)
      && (t.kind == Rollback ==> ref.kind in {Bet, Win, Refund} && !db.Reversed(id))
      && (ref.kind == Refund ==>
            ref.referenceId.Some? && ref.referenceId.value in db.txs &&
            db.txs[ref.referenceId.value].kind == Bet && db.txs[ref.referenceId.value].amount == t.amount)
  {
    assert Reverses(db, db.txs[id]);
    var r := db.txs[id].referenceId.value;
    assert Pair(db, r, id);
    assert db.txs[r].kind == Refund ==> Pair(db, db.txs[r].referenceId.value, r);
    assert id in db.reversalOf ==> Pair(db, id, db.reversalOf[id]);
  }

  // ----- a movement changes the total by what it moves -----

  /** The row whose worth a reversal of r changes: r itself, or the BET that r gave back. */
  function Root(db: Database, r: Id): Id {
    if r in db.txs && db.txs[r].kind == Refund && db.txs[r].referenceId.Some? then db.txs[r].referenceId.value else r
  }

  /** What a movement needs to know of the index, beside its own columns. */
  ghost predicate Unindexed(db: Database, id: Id) {
    id !in db.reversalOf && forall r | r in db.reversalOf :: db.reversalOf[r] != id
  }

  /** Rows but the mover and the root keep their worth. */
  lemma OtherWorth(db: Database, d: Database, tx: WagerTx, w: Wallet, m: Movement, reference: Option<Id>, id: Id)
    requires Movement1(db, d, tx, w, m, reference) && Reversing(db, tx, m, reference) && Pairs(db) && db.Keyed()
    requires id in db.txs && id != tx.id && (reference.Some? ==> id != Root(db, reference.value))
    ensures Worth(d.reversalOf, d.txs[id]) == Worth(db.reversalOf, db.txs[id])
  {
    assert id in db.reversalOf ==> Pair(db, id, db.reversalOf[id]);
  }

  /** The root's worth, before and after. */
  lemma RootWorth(db: Database, d: Database, tx: WagerTx, w: Wallet, m: Movement, r: Id)
    requires Movement1(db, d, tx, w, m, Some(r)) && Reversing(db, tx, m, Some(r)) && Pairs(db) && db.Keyed()
    requires Unindexed(db, tx.id) && RefundPaired(db, r)
    ensures Root(db, r) in db.txs && Root(db, r) != tx.id && db.txs[Root(db, r)].walletId == tx.walletId
    ensures Worth(d.reversalOf, d.txs[Root(db, r)]) == Worth(db.reversalOf, db.txs[Root(db, r)]) + m.entry.Net()
  {
    if db.txs[r].kind == Refund {
      assert Pair(db, Root(db, r), r);
    }
  }

  /** A processed REFUND is the reversal of the row it names. */
  ghost predicate RefundPaired(db: Database, r: Id) {
    r in db.txs && db.txs[r].status == Processed && db.txs[r].kind == Refund ==>
      db.txs[r].referenceId.Some? && db.txs[r].referenceId.value in db.reversalOf &&
      db.reversalOf[db.txs[r].referenceId.value] == r
  }

  /** The mover's own worth: a reversal's is nothing, a BET's or WIN's is what it moved. */
  lemma OwnWorth(db: Database, d: Database, tx: WagerTx, w: Wallet, m: Movement, reference: Option<Id>)
    requires Movement1(db, d, tx, w, m, reference) && Reversing(db, tx, m, reference) && Unindexed(db, tx.id)
    ensures Worth(db.reversalOf, tx) == 0
    ensures reference != Some(tx.id)
    ensures Worth(d.reversalOf, d.txs[tx.id]) == if reference.None? then m.entry.Net() else 0
  {
  }

  lemma MoveWorths(db: Database, d: Database, tx: WagerTx, w: Wallet, m: Movement, reference: Option<Id>)
    requires Movement1(db, d, tx, w, m, reference) && Reversing(db, tx, m, reference) && Pairs(db) && db.Keyed()
    requires Unindexed(db, tx.id) && (reference.Some? ==> RefundPaired(db, reference.value))
    ensures Total(Worths(d, w.id)) == Total(Worths(db, w.id)) + m.entry.Net()
  {
    hide Worth, Pairs, Reversing;
    forall id | id in db.txs && id != tx.id && (reference.Some? ==> id != Root(db, reference.value))
      ensures Worth(d.reversalOf, d.txs[id]) == Worth(db.reversalOf, db.txs[id])
    {
      OtherWorth(db, d, tx, w, m, reference, id);
    }
    OwnWorth(db, d, tx, w, m, reference);
    var before, after := Worths(db, w.id), Worths(d, w.id);
    match reference {
      case None =>
        assert after == before[tx.id := m.entry.Net()];
        TotalWith(before, tx.id, m.entry.Net());
      case Some(r) =>
        RootWorth(db, d, tx, w, m, r);
        var root := Root(db, r);
        assert after == before[root := Worth(d.reversalOf, d.txs[root])];
        TotalWith(before, root, Worth(d.reversalOf, d.txs[root]));
    }
  }

  /** Rows of other wallets keep their worth. */
  lemma OtherWorths(db: Database, d: Database, tx: WagerTx, w: Wallet, m: Movement, reference: Option<Id>, v: Id)
    requires Movement1(db, d, tx, w, m, reference) && Reversing(db, tx, m, reference) && Pairs(db) && db.Keyed()
    requires Unindexed(db, tx.id) && (reference.Some? ==> RefundPaired(db, reference.value)) && v != w.id
    ensures Worths(d, v) == Worths(db, v)
  {
    hide Worth, Pairs, Reversing;
    forall id | id in db.txs && db.txs[id].walletId == v
      ensures Worth(d.reversalOf, d.txs[id]) == Worth(db.reversalOf, db.txs[id])
    {
      match reference {
        case None =>
        case Some(r) => RootWorth(db, d, tx, w, m, r);
      }
      OtherWorth(db, d, tx, w, m, reference, id);
    }
  }

  // ----- every step conserves -----

  /** One row, worthless before and after, changes no total. */
  lemma ZeroRow(db: Database, d: Database, t: WagerTx, v: Id)
    requires d.reversalOf == db.reversalOf && d.txs == db.txs[t.id := t] && Worth(db.reversalOf, t) == 0
    requires t.id in db.txs ==> db.txs[t.id].walletId == t.walletId && Worth(db.reversalOf, db.txs[t.id]) == 0
    ensures Total(Worths(d, v)) == Total(Worths(db, v))
  {
    hide Worth;
    if t.walletId == v {
      assert Worths(d, v) == Worths(db, v)[t.id := 0];
      TotalWith(Worths(db, v), t.id, 0);
    } else {
      assert Worths(d, v) == Worths(db, v);
    }
  }

  lemma ZeroRowConserves(db: Database, d: Database, t: WagerTx)
    requires d.wallets == db.wallets && Conserved(db)
    requires d.reversalOf == db.reversalOf && d.txs == db.txs[t.id := t] && Worth(db.reversalOf, t) == 0
    requires t.id in db.txs ==> db.txs[t.id].walletId == t.walletId && Worth(db.reversalOf, db.txs[t.id]) == 0
    ensures Conserved(d)
  {
    hide Worth;
    forall v | v in d.wallets
      ensures ConservedAt(d, v)
    {
      assert ConservedAt(db, v);
      ZeroRow(db, d, t, v);
    }
  }

  lemma LandingConserves(db: Database, tx: WagerTx, w: Wallet, l: Landing, s: Stamp, open: set<Id>)
    requires Inv(db, open) && Landable(db, tx, open) && w == db.wallets[tx.walletId] && Justified(db, tx, w, l, s)
    requires Conserved(db)
    ensures Conserved(Outcome(db, tx, w, l, s))
  {
    hide Inv, Outcome, Justified, Movement1, Movement2, Reversing, Conserved, Worth, Pairs;
    Unlanded(db, tx, w, open);
    var d := Outcome(db, tx, w, l, s);
    if l.Moved? {
      OutcomeMoves(db, tx, w, l, s, open);
      Paired(db, tx, open, l.reference);
      MovedConserves(db, d, tx, w, l.movement, l.reference);
    } else {
      StillRow(db, tx, w, l, s, open);
      ZeroRowConserves(db, d, FinalRow(tx, w, l, s.now));
    }
  }

  lemma StillRow(db: Database, tx: WagerTx, w: Wallet, l: Landing, s: Stamp, open: set<Id>)
    requires Landable(db, tx, open) && Justified(db, tx, w, l, s) && !l.Moved?
    ensures var d, t := Outcome(db, tx, w, l, s), FinalRow(tx, w, l, s.now);
      && d.wallets == db.wallets && d.reversalOf == db.reversalOf && d.txs == db.txs[t.id := t] && t.id == tx.id
      && Worth(db.reversalOf, t) == 0 && Worth(db.reversalOf, tx) == 0 && t.walletId == tx.walletId
  {
    hide FinalRetries, FinalOutbox;
  }

  /** A row that may still land is not in the index; a processed REFUND is. */
  lemma Paired(db: Database, tx: WagerTx, open: set<Id>, reference: Option<Id>)
    requires Inv(db, open) && Landable(db, tx, open)
    ensures Pairs(db) && db.Keyed() && Unindexed(db, tx.id)
    ensures reference.Some? ==> RefundPaired(db, reference.value)
  {
    hide Inv;
    ProcessedRefer(db, open);
    IndexPairs(db, open);
    hide Reversals;
    forall r | r in db.reversalOf
      ensures db.reversalOf[r] != tx.id && r != tx.id
    {
      assert Pair(db, r, db.reversalOf[r]);
    }
    if reference.Some? {
      RefundIsPaired(db, reference.value);
    }
  }

  lemma RefundIsPaired(db: Database, r: Id)
    requires Referring(db) && Reversals(db) && db.Keyed()
    ensures RefundPaired(db, r)
  {
    if r in db.txs && db.txs[r].status == Processed && db.txs[r].kind == Refund {
      assert Reverses(db, db.txs[r]);
    }
  }

  lemma MovedConserves(db: Database, d: Database, tx: WagerTx, w: Wallet, m: Movement, reference: Option<Id>)
    requires Movement1(db, d, tx, w, m, reference) && Reversing(db, tx, m, reference) && Pairs(db) && db.Keyed()
    requires Unindexed(db, tx.id) && (reference.Some? ==> RefundPaired(db, reference.value)) && Conserved(db)
    ensures Conserved(d)
  {
    hide Pairs, Reversing, RefundPaired, Unindexed, Worth;
    forall v | v in d.wallets
      ensures ConservedAt(d, v)
    {
      assert ConservedAt(db, v);
      if v == w.id {
        MoveWorths(db, d, tx, w, m, reference);
      } else {
        OtherWorths(db, d, tx, w, m, reference, v);
      }
    }
  }

  lemma OpenConserves(db: Database, o: OpenInput, s: Stamp)
    requires Inv(db, {}) && Openable(db, o, s) && Conserved(db)
    ensures Conserved(Opened(db, o, s))
  {
    InvKeys(db, {});
    InvOwned(db);
    OpenedAdds(db, o, s);
    hide Inv, Openable, Opened;
    var d := Opened(db, o, s);
    forall v | v in d.wallets
      ensures ConservedAt(d, v)
    {
      OpenConservesAt(db, d, o, s, v);
    }
  }

  lemma OpenConservesAt(db: Database, d: Database, o: OpenInput, s: Stamp, v: Id)
    requires AddsRows(db, d, o, s) && v in d.wallets && (v in db.wallets ==> ConservedAt(db, v))
    requires forall id | id in db.txs :: db.txs[id].walletId in db.wallets
    requires o.walletId !in db.wallets && o.txId !in db.txs && !o.initial.IsNegative()
    ensures ConservedAt(d, v)
  {
    hide Worth;
    if v == o.walletId {
      NewWorths(db, d, o, s);
    } else {
      assert Worths(d, v) == Worths(db, v);
    }
  }

  /** A new wallet is worth its opening. */
  lemma NewWorths(db: Database, d: Database, o: OpenInput, s: Stamp)
    requires AddsRows(db, d, o, s)
    requires forall id | id in db.txs :: db.txs[id].walletId in db.wallets
    requires o.walletId !in db.wallets && o.txId !in db.txs && !o.initial.IsNegative()
    ensures Total(Worths(d, o.walletId)) == o.initial.amountMinor
  {
    var opening: map<Id, int> := map[];
    if o.initial.IsPositive() {
      assert Worth(d.reversalOf, OpeningRow(o, s.now)) == o.initial.amountMinor;
      hide Worth;
      assert Worths(d, o.walletId) == opening[o.txId := o.initial.amountMinor];
      TotalWith(opening, o.txId, o.initial.amountMinor);
    } else {
      assert Worths(d, o.walletId) == opening;
    }
  }

  lemma SameRowsConserve(db: Database, d: Database)
    requires Conserved(db) && d.wallets == db.wallets && d.txs == db.txs && d.reversalOf == db.reversalOf
    ensures Conserved(d)
  {
    forall v | v in d.wallets
      ensures ConservedAt(d, v)
    {
      assert ConservedAt(db, v);
      assert Worths(d, v) == Worths(db, v);
    }
  }

  lemma SettleConserves(db: Database, input: WagerInput, txId: Id, s: Stamp)
    requires Inv(db, {}) && txId !in db.wallets && Conserved(db)
    ensures match Process(db, input, txId, s)
      case Success(h) => Conserved(h.db)
      case Failure(_) => true
  {
    hide Inv, Process, Justified, Outcome, Landed, Conserved, Worth, Prepare;
    if Process(db, input, txId, s).Success? {
      if Process(db, input, txId, s).value.result.replay {
        ReplayChangesNothing(db, input, txId, s);
      } else {
        SubmitAddsRow(db, input, txId, s);
        var pending := Prepare(input, txId, s.now).value;
        var e, w := db.Insert(pending), db.wallets[pending.walletId];
        InsertConserves(db, pending);
        LandingConserves(e, pending, w, Landed(e, pending, w, s.(ttl := Ttl(input))), s.(ttl := Ttl(input)), {txId});
      }
    }
  }

  lemma InsertConserves(db: Database, t: WagerTx)
    requires Enterable(db, t) && Conserved(db)
    ensures Conserved(db.Insert(t))
  {
    ZeroRowConserves(db, db.Insert(t), t);
  }

  lemma ResolveConserves(db: Database, txId: Id, max: int, s: Stamp)
    requires Inv(db, {}) && Conserved(db)
    ensures match Resolve(db, txId, max, s)
      case Success(d) => Conserved(d)
      case Failure(_) => true
  {
    hide Inv, Write, ResolutionFor, Justified, Outcome, Conserved;
    if txId in db.txs && db.txs[txId].status == PendingReference {
      ResolveCases(db, txId, max, s);
      var tx := db.txs[txId];
      var w, retry := db.wallets[tx.walletId], db.retries[txId];
      match ResolutionFor(db, tx, retry, w, max, s) {
        case Again => SameRowsConserve(db, db.(retries := db.retries[txId := Rescheduled(retry, s.now)]));
        case Final(l) =>
          if !l.Stopped? {
            LandingConserves(db, tx, w, l, s, {});
          }
      }
    }
  }

  lemma StepConserves(db: Database, step: Step)
    requires Inv(db, {}) && Admissible(db, step) && Conserved(db)
    ensures Conserved(Next(db, step))
  {
    hide Inv, Process, Resolve, Open, Opened, Conserved;
    match step {
      case Submit(input, txId, s) => SettleConserves(db, input, txId, s);
      case Retried(txId, max, s) => ResolveConserves(db, txId, max, s);
      case OpenFor(o, s) =>
        OpenKeeps(db, o, s);
        if Open(db, o, s).Success? {
          OpenConserves(db, o, s);
        }
      case Lease(ids, _, lockUntil) => SameRowsConserve(db, Leased(db, ids, lockUntil));
    }
  }

  /** Conservation over every run: each balance is the total worth of its wallet's rows. */
  lemma {:induction false} RunConserves(db: Database, steps: seq<Step>)
    requires Inv(db, {}) && AdmissibleRun(db, steps) && Conserved(db)
    ensures Conserved(Run(db, steps))
    decreases |steps|
  {
    if steps != [] {
      hide Inv, Next, Admissible, Conserved;
      StepKeeps(db, steps[0]);
      StepConserves(db, steps[0]);
      RunConserves(Next(db, steps[0]), steps[1..]);
    }
  }
}

/**
 What a new request comes to, told by the committed rows alone: the table of outcomes that
 the requirements give, independent of how the use case is put together.
 */
module Outcomes {
  import opened Wrappers
  import opened Apperr
  import opened DomainMoney
  import opened DomainWagering
  import opened DomainWallet
  import opened DomainEvent
  import opened Postgres
  import opened AppProcess
  import opened Invariants
  import opened Settlement
  import opened Runs
  import opened History
  import opened Replays
  import opened Parking

  // ----- the vocabulary -----

  datatype Fate =
    | Refuses(code: Code)
    | Waits
    | Stands                     // processed, nothing moves
    | Takes                      // processed, the amount is debited
    | Gives                      // processed, the amount is credited
    | Errs                       // the whole request fails

  /** Some processed REFUND or ROLLBACK refers to this row. */
  ghost predicate HasReversal(db: Database, referenceId: Id) {
    exists id :: id in db.txs && db.txs[id].status == Processed && db.txs[id].IsReversal() &&
                 db.txs[id].referenceId == Some(referenceId)
  }

  /** The same provider, player, wallet, round and currency. */
  predicate SameContext(input: WagerInput, ref: WagerTx) {
    && ref.providerId == input.providerId && ref.playerId == input.playerId && ref.walletId == input.walletId
    && ref.roundId == input.roundId && ref.amount.currency == input.money.currency
  }

  function GiveOrErr(w: Wallet, amount: Money): Fate {
    if w.balance.amountMinor + amount.amountMinor > MAX_INT64 then Errs else Gives
  }

  function TakeOr(w: Wallet, amount: Money, code: Code): Fate {
    if w.balance.amountMinor < amount.amountMinor then Refuses(code) else Takes
  }

  /** A reversal waits for its reference, must match it, must be the first, and gives back or takes back. */
  function FateOn(input: WagerInput, ref: Option<WagerTx>, reversed: bool, w: Wallet): Fate {
    if ref.None? || ref.value.status == PendingReference then Waits
    else if ref.value.status != Processed then Refuses(ReferenceNotProcessed)
    else if !SameContext(input, ref.value) then Refuses(ReferenceMismatch)
    else if ref.value.amount != input.money then Refuses(ReferenceAmountMismatch)
    else if reversed then Refuses(ReferenceAlreadyReversed)
    else if ref.value.kind == Bet then GiveOrErr(w, input.money)
    else if input.kind == Rollback && (ref.value.kind == Win || ref.value.kind == Refund) then
      TakeOr(w, input.money, ReversalInsufficientFunds)
    else Refuses(ReferenceNotReversible)
  }

  /** The row the request refers to; a request that refers to itself finds nothing to reverse. */
  function ReferredTo(db: Database, input: WagerInput): Option<WagerTx> {
    if input.referenceExternalId == input.externalId then None
    else db.ByExternalId(input.providerId, input.referenceExternalId)
  }

  ghost function ReversalFate(db: Database, input: WagerInput, w: Wallet): Fate {
    var ref := ReferredTo(db, input);
    FateOn(input, ref, ref.Some? && HasReversal(db, ref.value.id), w)
  }

  ghost function RequestFate(db: Database, input: WagerInput, w: Wallet): Fate {
    if w.playerId != input.playerId then Refuses(PlayerWalletMismatch)
    else if w.balance.currency != input.money.currency then Refuses(Code.CurrencyMismatch)
    else
      match input.kind
      case Bet => TakeOr(w, input.money, InsufficientFunds)
      case Win => GiveOrErr(w, input.money)
      case Loss => Stands
      case _ => ReversalFate(db, input, w)
  }

  /** Only the wallet's own row and ledger change, by exactly this one line. */
  ghost predicate OneLine(db: Database, d: Database, w: Wallet, txId: Id, direction: Direction, amount: Money) {
    && w.id in d.wallets && d.wallets == db.wallets[w.id := d.wallets[w.id]]
    && d.wallets[w.id].version == w.version + 1
    && d.wallets[w.id].balance.currency == w.balance.currency
    && d.wallets[w.id].balance.amountMinor ==
         w.balance.amountMinor + (if direction == Credit then amount.amountMinor else -(amount.amountMinor as int))
    && (forall id: Id :: id != w.id ==> d.Ledger(id) == db.Ledger(id))
    && |d.Ledger(w.id)| == |db.Ledger(w.id)| + 1 && db.Ledger(w.id) <= d.Ledger(w.id)
    && var line := d.Ledger(w.id)[|db.Ledger(w.id)|];
       line.transactionId == txId && line.direction == direction && line.amount == amount && line.Sound()
  }

  ghost predicate NoLine(db: Database, d: Database) {
    d.wallets == db.wallets && d.ledger == db.ledger && d.reversalOf == db.reversalOf
  }

  /** What the caller sees and the tables show for each fate. */
  ghost predicate Shown(db: Database, w: Wallet, input: WagerInput, txId: Id, s: Stamp, f: Fate, r: Result<Handled, Error>) {
    && (r.Success? ==> r.value.db.txs == db.txs[txId := r.value.result.tx] && !r.value.result.replay)
    && match f
       case Errs => r.Failure?
       case Refuses(code) =>
         && r.Success? && r.value.result.tx.status == Rejected && r.value.result.tx.failureCode == Some(code)
         && r.value.result.balance == w.balance && NoLine(db, r.value.db) && txId !in r.value.db.retries
       case Waits =>
         && r.Success? && r.value.result.tx.status == PendingReference && r.value.result.balance == w.balance
         && NoLine(db, r.value.db)
         && r.value.db.retries == db.retries[txId := Retry(0, s.now + SECOND, s.now + Ttl(input), s.now)]
       case Stands =>
         && r.Success? && r.value.result.tx.status == Processed && r.value.result.balance == w.balance
         && NoLine(db, r.value.db)
       case _ =>
         && r.Success? && r.value.result.tx.status == Processed
         && OneLine(db, r.value.db, w, txId, if f.Gives? then Credit else Debit, input.money)
         && r.value.result.balance == r.value.db.wallets[w.id].balance
  }

  // ----- the use case meets the table -----

  /** The reversal query answers by the rows. */
  lemma IndexIsRows(db: Database, open: set<Id>, r: Id)
    requires Inv(db, open)
    ensures db.Reversed(r) <==> HasReversal(db, r)
  {
    hide Identities, Indexed, Shapes, Chains, Booked, Announced;
    if db.Reversed(r) {
      assert ReversalEntry(db, r, db.reversalOf[r]);
    }
    if HasReversal(db, r) {
      var id :| id in db.txs && db.txs[id].status == Processed && db.txs[id].IsReversal() &&
                db.txs[id].referenceId == Some(r);
      assert Reverses(db, db.txs[id]);
    }
  }

  /** How a fate shows in the landing. */
  ghost predicate LandsAs(f: Fate, w: Wallet, tx: WagerTx, l: Landing, s: Stamp) {
    match f
    case Errs => l.Stopped?
    case Refuses(code) => l == Refused(code)
    case Waits => l.Parked?
    case Stands => l.Kept?
    case _ => l.Moved? && w.IsMovement(l.movement, s.ids.entry, tx.id, if f.Gives? then Credit else Debit, tx.amount, s.now)
  }

  lemma CreditLands(w: Wallet, tx: WagerTx, reference: Option<Id>, s: Stamp)
    requires Owned(w, tx) && tx.amount.IsPositive() && !w.balance.IsNegative()
    requires tx.id != NIL && w.id != NIL && s.Usable()
    ensures LandsAs(GiveOrErr(w, tx.amount), w, tx, Land(w, tx, Move(Credit, reference), s.ids.entry, s.now), s)
  {
  }

  lemma DebitLands(w: Wallet, tx: WagerTx, reference: Option<Id>, s: Stamp)
    requires Owned(w, tx) && tx.amount.IsPositive() && tx.id != NIL && w.id != NIL && s.Usable()
    ensures LandsAs(TakeOr(w, tx.amount, Shortfall(reference)), w, tx,
                    Land(w, tx, Move(Debit, reference), s.ids.entry, s.now), s)
  {
  }

  /** A verdict on a reference lands as the table says. */
  lemma FateOfVerdict(input: WagerInput, w: Wallet, tx: WagerTx, ref: Option<WagerTx>, reversed: bool, s: Stamp)
    requires tx.IsReversal() && Owned(w, tx) && s.Usable() && !w.balance.IsNegative() && w.id != NIL && tx.id != NIL
    requires tx.amount.IsPositive() && Carries(tx, input)
    requires ref.Some? ==> ref.value.status in {PendingReference, Status.Processed, Status.Rejected}
    ensures LandsAs(FateOn(input, ref, reversed, w), w, tx,
                    Land(w, tx, JudgeReference(tx, ref, reversed), s.ids.entry, s.now), s)
  {
    hide LandsAs, Land, GiveOrErr, TakeOr;
    LandsRefused(w, tx, s);
    if ref.Some? {
      CreditLands(w, tx, Some(ref.value.id), s);
      DebitLands(w, tx, Some(ref.value.id), s);
    }
  }

  lemma FateOfReversal(db: Database, input: WagerInput, w: Wallet, tx: WagerTx, s: Stamp)
    requires Inv(db, {}) && Enterable(db, tx) && w == db.wallets[tx.walletId] && w.id == tx.walletId
    requires tx.IsReversal() && Owned(w, tx) && s.Usable() && !w.balance.IsNegative() && w.id != NIL
    requires Carries(tx, input)
    ensures LandsAs(ReversalFate(db, input, w), w, tx, Landed(db.Insert(tx), tx, w, s), s)
  {
    hide Inv, LandsAs, Land, HasReversal, FateOn, JudgeReference, Indexed;
    InvKeys(db, {});
    InsertedReference(db, tx);
    FoundRow(db, tx);
    var ref := ReferredTo(db, input);
    if ref.Some? {
      IndexIsRows(db, {}, ref.value.id);
    }
    FateOfVerdict(input, w, tx, ref, ref.Some? && db.Reversed(ref.value.id), s);
    SelfWaits(tx, false, AlreadyReversed(db.Insert(tx), Some(tx)));
    JudgeIsReference(db.Insert(tx), w, tx);
    hide ReferenceOf, Enterable;
  }

  /** Its own open row is as good as no reference. */
  lemma SelfWaits(tx: WagerTx, a: bool, b: bool)
    requires tx.status == Pending
    ensures JudgeReference(tx, Some(tx), b) == JudgeReference(tx, None, a) == Park
  {
  }

  lemma JudgeIsReference(e: Database, w: Wallet, tx: WagerTx)
    requires Owned(w, tx) && tx.IsReversal()
    ensures forall ref: Option<WagerTx>, reversed: bool :: Judge(w, tx, ref, reversed) == JudgeReference(tx, ref, reversed)
  {
  }

  lemma LandsRefused(w: Wallet, tx: WagerTx, s: Stamp)
    ensures forall code: Code :: LandsAs(Refuses(code), w, tx, Land(w, tx, Reject(code), s.ids.entry, s.now), s)
    ensures LandsAs(Waits, w, tx, Land(w, tx, Park, s.ids.entry, s.now), s)
    ensures LandsAs(Stands, w, tx, Land(w, tx, Keep, s.ids.entry, s.now), s)
  {
  }

  /** The row carries the request's fields. */
  predicate Carries(tx: WagerTx, input: WagerInput) {
    && tx.providerId == input.providerId && tx.externalId == input.externalId
    && tx.referenceExternalId == input.referenceExternalId && tx.kind == input.kind && tx.amount == input.money
    && tx.playerId == input.playerId && tx.walletId == input.walletId && tx.roundId == input.roundId
  }

  /** A row that is found is committed: not open, not failed. */
  lemma FoundRow(db: Database, tx: WagerTx)
    requires Inv(db, {})
    ensures var found := db.ByExternalId(tx.providerId, tx.referenceExternalId);
      found.Some? ==> found.value.status in {PendingReference, Status.Processed, Status.Rejected}
  {
    hide Inv;
    InvKeys(db, {});
    var k := (tx.providerId, tx.referenceExternalId);
    if k in db.byExternal && db.byExternal[k] in db.txs {
      RowStatus(db, db.byExternal[k]);
    }
  }

  /** Any request on an existing wallet lands as the table says. */
  lemma FateOfRequest(db: Database, input: WagerInput, w: Wallet, tx: WagerTx, s: Stamp)
    requires Inv(db, {}) && Enterable(db, tx) && w == db.wallets[tx.walletId] && Carries(tx, input) && s.Usable()
    ensures LandsAs(RequestFate(db, input, w), w, tx, Landed(db.Insert(tx), tx, w, s), s)
  {
    hide Inv, LandsAs, Land, ReversalFate, GiveOrErr, TakeOr, ReferenceOf, JudgeReference;
    WalletHere(db, tx.walletId);
    LandsRefused(w, tx, s);
    if Owned(w, tx) {
      if tx.IsReversal() {
        FateOfReversal(db, input, w, tx, s);
      } else if tx.kind == Win {
        CreditLands(w, tx, None, s);
      } else if tx.kind == Bet {
        DebitLands(w, tx, None, s);
      }
    }
  }

  lemma WalletHere(db: Database, walletId: Id)
    requires Inv(db, {}) && walletId in db.wallets
    ensures db.wallets[walletId].id == walletId && walletId != NIL && !db.wallets[walletId].balance.IsNegative()
  {
    hide Indexed, Shapes, Reversals, Chains, Booked, Announced;
    assert WalletRow(db, db.wallets[walletId]);
  }

  /** A landing shows in the tables and in the answer as its fate says. */
  lemma LandingShows(db: Database, input: WagerInput, w: Wallet, tx: WagerTx, f: Fate, l: Landing, s: Stamp)
    requires Enterable(db, tx) && w == db.wallets[tx.walletId] && w.id == tx.walletId && Carries(tx, input)
    requires LandsAs(f, w, tx, l, s) && !f.Errs? && tx.id !in db.retries && s.ttl == Ttl(input)
    ensures Shown(db, w, input, tx.id, s, f,
      Success(Handled(Outcome(db.Insert(tx), tx, w, l, s), WagerResult(FinalRow(tx, w, l, s.now), BalanceAfter(w, l), false))))
  {
    hide FinalOutbox;
    assert Outcome(db.Insert(tx), tx, w, l, s).txs == db.txs[tx.id := FinalRow(tx, w, l, s.now)];
    if l.Moved? {
      LineShows(db, w, tx, l, s);
    }
  }

  lemma LineShows(db: Database, w: Wallet, tx: WagerTx, l: Landing, s: Stamp)
    requires Enterable(db, tx) && w == db.wallets[tx.walletId] && w.id == tx.walletId && l.Moved?
    requires w.IsMovement(l.movement, s.ids.entry, tx.id, l.movement.entry.direction, tx.amount, s.now)
    ensures OneLine(db, Outcome(db.Insert(tx), tx, w, l, s), w, tx.id, l.movement.entry.direction, tx.amount)
  {
    hide FinalOutbox, FinalRetries, FinalRow;
    var d := Outcome(db.Insert(tx), tx, w, l, s);
    assert db.Insert(tx).Ledger(w.id) == db.Ledger(w.id);
    assert d.Ledger(w.id) == db.Ledger(w.id) + [l.movement.entry];
  }

  /**
   The outcome of every new request, decided by the committed rows: which status and code it
   gets, what balance it reports, and the one ledger line it leaves, if any.
   */
  lemma OutcomeOfNewRequest(db: Database, input: WagerInput, txId: Id, s: Stamp)
    requires Inv(db, {}) && s.Usable() && Prepare(input, txId, s.now).Success?
    requires txId !in db.txs && txId !in db.wallets && input.walletId in db.wallets && !Durable(db, input)
    ensures var w := db.wallets[input.walletId];
      Shown(db, w, input, txId, s, RequestFate(db, input, w), Process(db, input, txId, s))
  {
    hide Inv, LandsAs, RequestFate, Shown, Landed, Settle, Outcome, FinalRow, Process, Enterable, Justified;
    var tx, st, w := Prepare(input, txId, s.now).value, s.(ttl := Ttl(input)), db.wallets[input.walletId];
    PreparedRow(input, txId, s.now);
    EnterableHere(db, input, txId, s.now);
    WalletHere(db, input.walletId);
    NewIsNotRetried(db, txId);
    FreshRequest(db, input, txId, s);
    SettleKeeps(db, tx, st);
    FateOfRequest(db, input, w, tx, st);
    var f, l := RequestFate(db, input, w), Landed(db.Insert(tx), tx, w, st);
    SameStamp(f, w, tx, l, s, st);
    if l.Stopped? {
      ErrsShown(db, w, input, tx, s, f, l, Process(db, input, txId, s));
    } else {
      NotErr(f, w, tx, l, st);
      LandingShows(db, input, w, tx, f, l, st);
      ShownAtTtl(db, w, input, txId, s, st, f, Process(db, input, txId, s));
    }
  }

  lemma NewIsNotRetried(db: Database, id: Id)
    requires Inv(db, {}) && id !in db.txs
    ensures id !in db.retries
  {
    hide Indexed, Shapes, Reversals, Chains, Booked, Announced;
  }

  lemma SameStamp(f: Fate, w: Wallet, tx: WagerTx, l: Landing, s: Stamp, st: Stamp)
    requires st == s.(ttl := st.ttl)
    ensures LandsAs(f, w, tx, l, s) == LandsAs(f, w, tx, l, st)
  {
  }

  lemma ErrsShown(db: Database, w: Wallet, input: WagerInput, tx: WagerTx, s: Stamp, f: Fate, l: Landing,
                  r: Result<Handled, Error>)
    requires LandsAs(f, w, tx, l, s) && l.Stopped? && r.Failure?
    ensures Shown(db, w, input, tx.id, s, f, r)
  {
  }

  lemma NotErr(f: Fate, w: Wallet, tx: WagerTx, l: Landing, s: Stamp)
    requires LandsAs(f, w, tx, l, s) && !l.Stopped?
    ensures !f.Errs?
  {
  }

  lemma ShownAtTtl(db: Database, w: Wallet, input: WagerInput, txId: Id, s: Stamp, st: Stamp, f: Fate, r: Result<Handled, Error>)
    requires st == s.(ttl := st.ttl) && Shown(db, w, input, txId, st, f, r)
    ensures Shown(db, w, input, txId, s, f, r)
  {
    hide OneLine, NoLine;
  }

  /** The referred row is a committed external row. */
  lemma ReferredRow(db: Database, input: WagerInput)
    requires Indexed(db) && db.Keyed() && ReferredTo(db, input).Some?
    ensures var ref := ReferredTo(db, input).value; ref.id in db.txs && db.txs[ref.id] == ref && ref.origin == External
  {
    var k := (input.providerId, input.referenceExternalId);
    assert ExternalEntry(db, k, db.byExternal[k]);
  }

  lemma KindOfRow(db: Database, id: Id)
    requires Inv(db, {}) && id in db.txs
    ensures var t := db.txs[id];
      && (t.kind == Loss ==> t.amount.IsZero()) && !t.kind.Unknown? && (t.origin == External ==> t.kind != Opening)
  {
    hide Indexed, Reversals, Chains, Booked, Announced;
    assert Shape(db, db.txs[id], {});
  }
}

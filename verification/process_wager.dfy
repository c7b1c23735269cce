/**
 Processing a wager inside one SQL transaction (internal/app/process_wager.go).

 The first half says what the outcome of a request is, as functions of the tables; the
 second half is the use case, statement by statement, proved to produce that outcome.
 */
module AppProcess {
  import opened Wrappers
  import opened Apperr
  import opened DomainMoney
  import opened DomainWagering
  import opened DomainWallet
  import opened DomainEvent
  import opened Postgres

  const SECOND: int := 1_000_000_000
  const DEFAULT_REFERENCE_TTL: int := 3600 * SECOND
  const DEFAULT_REFERENCE_MAX_TRIES: int := 12

  /** The UUIDs newID hands out during one execution. */
  datatype Ids = Ids(entry: Id, event1: Id, event2: Id)

  /** What every event and row of one execution is stamped with. */
  datatype Stamp = Stamp(ids: Ids, correlationId: string, ttl: int, now: int) {
    predicate Usable() {
      ids.entry != NIL
    }
  }

  datatype WagerResult = WagerResult(tx: WagerTx, balance: Money, replay: bool)

  datatype Handled = Handled(db: Database, result: WagerResult)

  // ----- the decision -----

  /** What must happen to a transaction, before the balance is looked at. */
  datatype Verdict =
    | Park
    | Reject(code: Code)
    | Keep                                            // LOSS: nothing moves
    | Move(direction: Direction, reference: Option<Id>)
    | Unsupported

  /** The reference does not exist yet, or has not reached a terminal status. */
  predicate Unsettled(ref: Option<WagerTx>) {
    ref.None? || ref.value.status == Pending || ref.value.status == PendingReference
  }

  /** validateReferenceMatch: the fields first, then the amount. */
  function Mismatch(tx: WagerTx, ref: WagerTx): Option<Code> {
    if ref.providerId != tx.providerId || ref.playerId != tx.playerId || ref.walletId != tx.walletId ||
       ref.roundId != tx.roundId || ref.amount.currency != tx.amount.currency
    then Some(ReferenceMismatch)
    else if ref.amount != tx.amount then Some(ReferenceAmountMismatch)
    else None
  }

  /** A BET is given back; a WIN or a REFUND is taken back, and only by a ROLLBACK. */
  function JudgeReference(tx: WagerTx, ref: Option<WagerTx>, reversed: bool): Verdict {
    if Unsettled(ref) then Park
    else if ref.value.status != Processed then Reject(ReferenceNotProcessed)
    else if Mismatch(tx, ref.value).Some? then Reject(Mismatch(tx, ref.value).value)
    else if reversed then Reject(ReferenceAlreadyReversed)
    else
      match ref.value.kind
      case Bet => Move(Credit, Some(ref.value.id))
      case Win | Refund =>
        if tx.kind == Rollback then Move(Debit, Some(ref.value.id)) else Reject(ReferenceNotReversible)
      case _ => Reject(ReferenceNotReversible)
  }

  function Judge(w: Wallet, tx: WagerTx, ref: Option<WagerTx>, reversed: bool): Verdict {
    if w.playerId != tx.playerId then Reject(PlayerWalletMismatch)
    else if w.balance.currency != tx.amount.currency then Reject(Code.CurrencyMismatch)
    else if tx.IsReversal() then JudgeReference(tx, ref, reversed)
    else
      match tx.kind
      case Bet => Move(Debit, None)
      case Win => Move(Credit, None)
      case Loss => Keep
      case _ => Unsupported
  }

  /** What a verdict comes to once it meets the wallet. */
  datatype Landing =
    | Parked
    | Refused(code: Code)
    | Kept
    | Moved(movement: Movement, reference: Option<Id>)
    | Stopped(error: Error)

  function Land(w: Wallet, tx: WagerTx, v: Verdict, entryId: Id, now: int): Landing {
    match v
    case Park => Parked
    case Reject(code) => Refused(code)
    case Keep => Kept
    case Unsupported => Stopped(Domain(KindNotAllowed))
    case Move(direction, reference) =>
      match (if direction == Credit then w.Credited(entryId, tx.id, tx.amount, now)
             else w.Debited(entryId, tx.id, tx.amount, now))
      case Success(m) => Moved(m, reference)
      case Failure(e) =>
        if direction == Debit && e == Domain(InsufficientFunds) then Refused(Shortfall(reference)) else Stopped(e)
  }

  function Shortfall(reference: Option<Id>): Code {
    if reference.None? then InsufficientFunds else ReversalInsufficientFunds
  }

  /** Records the balance a rejected transaction saw; a row without ids is left alone. */
  function SetResultBalance(tx: WagerTx, minor: int64): WagerTx {
    if tx.id == NIL || tx.walletId == NIL || tx.playerId == NIL then tx else tx.(resultBalance := Some(minor))
  }

  /** The row a landing leaves. */
  function Marked(tx: WagerTx, w: Wallet, l: Landing, now: int): Result<WagerTx, Error> {
    match l
    case Parked => tx.MarkPendingReference(now)
    case Refused(code) =>
      var t :- tx.MarkRejected(code, now);
      Success(SetResultBalance(t, w.balance.amountMinor))
    case Kept => tx.MarkProcessed(w.balance, None, now)
    case Moved(m, reference) => tx.MarkProcessed(m.wallet.balance, reference, now)
    case Stopped(e) => Failure(e)
  }

  function BalanceAfter(w: Wallet, l: Landing): Money {
    match l
    case Moved(m, _) => m.wallet.balance
    case _ => w.balance
  }

  /** The tables after a landing: row, wallet, ledger line, retry row and events together. */
  function Write(db: Database, tx: WagerTx, w: Wallet, l: Landing, s: Stamp): Result<Database, Error> {
    var t :- Marked(tx, w, l, s.now);
    match l
    case Parked =>
      var d :- db.Update(t);
      Success(d.Emit(NewPendingReference(s.ids.event1, t, s.correlationId, s.now))
               .(retries := d.retries[t.id := Retry(0, s.now + SECOND, s.now + s.ttl, s.now)]))
    case Refused(_) =>
      var d :- db.Update(t);
      Success(d.(retries := d.retries - {t.id}).Emit(NewRejected(s.ids.event1, t, s.correlationId, s.now)))
    case Moved(m, _) =>
      if db.HasEntry(m.entry.walletId, m.entry.transactionId) then
        Failure(Sql(UniqueViolation))
      else
        var d :- Posted(db, m).Update(t);
        Success(d.(retries := d.retries - {t.id})
                 .Emit(NewProcessed(s.ids.event1, t, m.wallet.balance, s.correlationId, s.now))
                 .Emit(NewBalanceChanged(s.ids.event2, m.entry, m.wallet.version, s.correlationId, s.now)))
    case _ =>
      var d :- db.Update(t);
      Success(d.Emit(NewProcessed(s.ids.event1, t, w.balance, s.correlationId, s.now)))
  }

  /** The wallet row and the ledger line of a movement. */
  function Posted(db: Database, m: Movement): Database {
    db.(wallets := db.wallets[m.wallet.id := m.wallet],
        ledger := db.ledger[m.entry.walletId := db.Ledger(m.entry.walletId) + [m.entry]])
  }

  // ----- the whole request -----

  function ReferenceOf(db: Database, tx: WagerTx): Option<WagerTx> {
    db.ByExternalId(tx.providerId, tx.referenceExternalId)
  }

  predicate AlreadyReversed(db: Database, ref: Option<WagerTx>) {
    ref.Some? && db.Reversed(ref.value.id)
  }

  /** What tx, already inserted, lands on. */
  function Landed(db: Database, tx: WagerTx, w: Wallet, s: Stamp): Landing {
    var ref := ReferenceOf(db, tx);
    Land(w, tx, Judge(w, tx, ref, AlreadyReversed(db, ref)), s.ids.entry, s.now)
  }

  /** Answers with the stored row if the payload is the same, and refuses otherwise. */
  function Replay(db: Database, existing: WagerTx, hash: PayloadHash): Result<WagerResult, Error> {
    if existing.payloadHash != Some(hash) then
      Failure(Domain(Conflict))
    else if existing.resultBalance.Some? then
      Success(WagerResult(existing, Money(existing.resultBalance.value, existing.amount.currency), true))
    else if existing.walletId in db.wallets then
      Success(WagerResult(existing, db.wallets[existing.walletId].balance, true))
    else
      Failure(Domain(WalletNotFound))
  }

  /** A new transaction on an existing wallet. */
  function Settle(db: Database, pending: WagerTx, s: Stamp): Result<Handled, Error>
    requires pending.walletId in db.wallets
  {
    var w := db.wallets[pending.walletId];
    var entered := db.Insert(pending);
    var l := Landed(entered, pending, w, s);
    var after :- Write(entered, pending, w, l, s);
    Success(Handled(after, WagerResult(Marked(pending, w, l, s.now).value, BalanceAfter(w, l), false)))
  }

  /** One request against the tables: refuse, replay, or settle. On failure nothing is kept. */
  function Handle(db: Database, pending: WagerTx, hash: PayloadHash, s: Stamp): Result<Handled, Error> {
    var taken := db.ByExternalId(pending.providerId, pending.externalId);
    var held := db.ByIdempotencyKey(pending.providerId, pending.idempotencyKey);
    if taken.Some? && taken.value.idempotencyKey != pending.idempotencyKey then
      Failure(Domain(Conflict))
    else if held.Some? then
      var r :- Replay(db, held.value, hash);
      Success(Handled(db, r))
    else if pending.walletId !in db.wallets then
      Failure(Domain(WalletNotFound))
    else if taken.Some? || pending.id in db.txs then
      Failure(Domain(Conflict))
    else
      Settle(db, pending, s)
  }

  /** The INSERT itself, not a pre-read, is what refuses the request. */
  predicate RefusedByInsert(db: Database, pending: WagerTx) {
    && db.ByIdempotencyKey(pending.providerId, pending.idempotencyKey).None?
    && pending.walletId in db.wallets
    && (db.ByExternalId(pending.providerId, pending.externalId).Some? ==>
          db.ByExternalId(pending.providerId, pending.externalId).value.idempotencyKey == pending.idempotencyKey)
    && (db.ByExternalId(pending.providerId, pending.externalId).Some? || pending.id in db.txs)
  }

  /** prepare: everything that can be refused before a SQL transaction is opened. */
  function Prepare(input: WagerInput, txId: Id, now: int): (r: Result<WagerTx, Error>)
    ensures r.Success? ==>
      && r.value.status == Pending && r.value.origin == External
      && r.value.id == txId && r.value.payloadHash == Some(CanonicalHash(input))
  {
    if input.idempotencyKey == "" then Failure(Domain(InvalidInput))
    else if input.kind == Opening then Failure(Domain(KindNotAllowed))
    else NewExternal(txId, CanonicalHash(input), input, now)
  }

  function Ttl(input: WagerInput): int {
    if input.referenceTTL <= 0 then DEFAULT_REFERENCE_TTL else input.referenceTTL
  }

  // ----- the use case -----

  /** Reads of the tables, then the outcome above; a refusal by the INSERT aborts the transaction. */
  method ExecuteInTx(repos: Repositories, pending: WagerTx, hash: PayloadHash, s: Stamp)
    returns (r: Result<WagerResult, Error>)
    requires pending.status == Pending && pending.origin == External && s.Usable()
    requires repos.db.Keyed() && !repos.aborted
    modifies repos`db, repos`aborted
    ensures match Handle(old(repos.db), pending, hash, s)
      case Success(h) => r == Success(h.result) && repos.db == h.db && !repos.aborted
      case Failure(e) => r == Failure(e)
    ensures r == Failure(Domain(Conflict)) ==> repos.db == old(repos.db)
    ensures r == Failure(Domain(Conflict)) ==> (repos.aborted <==> RefusedByInsert(old(repos.db), pending))
  {
    var existingExt := repos.db.ByExternalId(pending.providerId, pending.externalId);
    if existingExt.Some? && existingExt.value.idempotencyKey != pending.idempotencyKey {
      return Failure(Domain(Conflict));
    }

    var existing := repos.db.ByIdempotencyKey(pending.providerId, pending.idempotencyKey);
    if existing.Some? {
      r := ReplayOrConflict(repos, existing.value, hash);
      return;
    }

    var w := repos.GetWallet(pending.walletId);
    if w.Failure? {
      return Failure(w.error);
    }

    var insert := repos.TryInsertIdempotency(pending);
    match insert {
      case Failure(e) => return Failure(e);
      case Success(Existing(other)) =>
        r := ReplayOrConflict(repos, other, hash);
        return;
      case Success(Inserted) =>
    }

    if w.value.playerId != pending.playerId {
      r := RejectAndPersist(repos, pending, w.value, PlayerWalletMismatch, s);
    } else if w.value.balance.currency != pending.amount.currency {
      r := RejectAndPersist(repos, pending, w.value, Code.CurrencyMismatch, s);
    } else if pending.kind == Refund || pending.kind == Rollback {
      r := ProcessReversal(repos, pending, w.value, s);
    } else {
      r := ProcessSimple(repos, pending, w.value, s);
    }
  }

  method ReplayOrConflict(repos: Repositories, existing: WagerTx, hash: PayloadHash)
    returns (r: Result<WagerResult, Error>)
    ensures r == Replay(repos.db, existing, hash)
  {
    if existing.payloadHash != Some(hash) {
      return Failure(Domain(Conflict));
    }
    var bal: Money;
    if existing.resultBalance.Some? {
      bal := Money(existing.resultBalance.value, existing.amount.currency);
    } else {
      var w := repos.GetWallet(existing.walletId);
      if w.Failure? {
        return Failure(w.error);
      }
      bal := w.value.balance;
    }
    return Success(WagerResult(existing, bal, true));
  }

  /** The answer of the helpers below: what Write says of the landing they carry out. */
  ghost predicate Carried(before: Database, after: Database, tx: WagerTx, w: Wallet, l: Landing, s: Stamp,
                          r: Result<WagerResult, Error>)
  {
    match Write(before, tx, w, l, s)
    case Success(d) =>
      && Marked(tx, w, l, s.now).Success?
      && r == Success(WagerResult(Marked(tx, w, l, s.now).value, BalanceAfter(w, l), false))
      && after == d
    case Failure(e) => r == Failure(e) && e != Domain(Conflict)
  }

  method ProcessSimple(repos: Repositories, tx: WagerTx, w: Wallet, s: Stamp) returns (r: Result<WagerResult, Error>)
    requires !repos.aborted && tx.walletId == w.id && s.Usable()
    requires w.id in repos.db.wallets && repos.db.wallets[w.id] == w
    requires w.playerId == tx.playerId && w.balance.currency == tx.amount.currency && !tx.IsReversal()
    modifies repos`db, repos`aborted
    ensures Carried(old(repos.db), repos.db, tx, w, Landed(old(repos.db), tx, w, s), s, r)
    ensures r.Success? ==> !repos.aborted
  {
    match tx.kind
    case Bet => r := ApplyDebitWithRef(repos, tx, w, None, InsufficientFunds, s);
    case Win => r := ApplyCreditWithRef(repos, tx, w, None, s);
    case Loss => r := ApplyLoss(repos, tx, w, s);
    case _ => return Failure(Domain(KindNotAllowed));
  }

  method ProcessReversal(repos: Repositories, tx: WagerTx, w: Wallet, s: Stamp) returns (r: Result<WagerResult, Error>)
    requires !repos.aborted && tx.walletId == w.id && s.Usable()
    requires w.id in repos.db.wallets && repos.db.wallets[w.id] == w
    requires w.playerId == tx.playerId && w.balance.currency == tx.amount.currency && tx.IsReversal()
    modifies repos`db, repos`aborted
    ensures Carried(old(repos.db), repos.db, tx, w, Landed(old(repos.db), tx, w, s), s, r)
    ensures r.Success? ==> !repos.aborted
  {
    var found := repos.db.ByExternalId(tx.providerId, tx.referenceExternalId);
    if found.None? {
      r := ParkPendingReference(repos, tx, w, s);
      return;
    }
    var ref := found.value;
    if ref.status == PendingReference {
      r := ParkPendingReference(repos, tx, w, s);
      return;
    }
    if ref.status == Rejected || ref.status == Failed {
      r := RejectAndPersist(repos, tx, w, ReferenceNotProcessed, s);
      return;
    }
    if ref.status != Processed {
      r := ParkPendingReference(repos, tx, w, s);
      return;
    }
    var mismatch := Mismatch(tx, ref);
    if mismatch.Some? {
      r := RejectAndPersist(repos, tx, w, mismatch.value, s);
      return;
    }
    if repos.db.Reversed(ref.id) {
      r := RejectAndPersist(repos, tx, w, ReferenceAlreadyReversed, s);
      return;
    }
    match ref.kind
    case Bet => r := ApplyCreditWithRef(repos, tx, w, Some(ref.id), s);
    case Win | Refund =>
      if tx.kind != Rollback {
        r := RejectAndPersist(repos, tx, w, ReferenceNotReversible, s);
      } else {
        r := ApplyDebitWithRef(repos, tx, w, Some(ref.id), ReversalInsufficientFunds, s);
      }
    case _ => r := RejectAndPersist(repos, tx, w, ReferenceNotReversible, s);
  }

  method ParkPendingReference(repos: Repositories, tx: WagerTx, w: Wallet, s: Stamp) returns (r: Result<WagerResult, Error>)
    requires !repos.aborted
    modifies repos`db, repos`aborted
    ensures Carried(old(repos.db), repos.db, tx, w, Parked, s, r)
    ensures r.Success? ==> !repos.aborted
  {
    var parked := tx.MarkPendingReference(s.now);
    if parked.Failure? {
      return Failure(parked.error);
    }
    var u := repos.UpdateTransaction(parked.value);
    match u {
      case Failure(e) => return Failure(e);
      case Success(_) =>
    }
    repos.InsertOutbox(NewPendingReference(s.ids.event1, parked.value, s.correlationId, s.now));
    repos.UpsertRetry(parked.value.id, 0, s.now + SECOND, s.now + s.ttl, s.now);
    return Success(WagerResult(parked.value, w.balance, false));
  }

  /** Debits, or rejects with the given code when the wallet falls short. */
  method ApplyDebitWithRef(repos: Repositories, tx: WagerTx, w: Wallet, reference: Option<Id>, fundsCode: Code, s: Stamp)
    returns (r: Result<WagerResult, Error>)
    requires !repos.aborted
    requires w.id in repos.db.wallets && repos.db.wallets[w.id] == w
    requires fundsCode == Shortfall(reference)
    modifies repos`db, repos`aborted
    ensures Carried(old(repos.db), repos.db, tx, w, Land(w, tx, Move(Debit, reference), s.ids.entry, s.now), s, r)
    ensures r.Success? ==> !repos.aborted
  {
    var expectedVersion := w.version;
    var mov := w.Debited(s.ids.entry, tx.id, tx.amount, s.now);
    if mov.Failure? {
      if mov.error == Domain(InsufficientFunds) {
        r := RejectAndPersist(repos, tx, w, fundsCode, s);
        return;
      }
      return Failure(mov.error);
    }
    r := CommitMovement(repos, tx, mov.value, expectedVersion, reference, s, w);
  }

  /** Credits; a balance beyond int64 is an error, not a rejection. */
  method ApplyCreditWithRef(repos: Repositories, tx: WagerTx, w: Wallet, reference: Option<Id>, s: Stamp)
    returns (r: Result<WagerResult, Error>)
    requires !repos.aborted
    requires w.id in repos.db.wallets && repos.db.wallets[w.id] == w
    modifies repos`db, repos`aborted
    ensures Carried(old(repos.db), repos.db, tx, w, Land(w, tx, Move(Credit, reference), s.ids.entry, s.now), s, r)
    ensures r.Success? ==> !repos.aborted
  {
    var expectedVersion := w.version;
    var mov := w.Credited(s.ids.entry, tx.id, tx.amount, s.now);
    if mov.Failure? {
      return Failure(mov.error);
    }
    r := CommitMovement(repos, tx, mov.value, expectedVersion, reference, s, w);
  }

  method ApplyLoss(repos: Repositories, tx: WagerTx, w: Wallet, s: Stamp) returns (r: Result<WagerResult, Error>)
    requires !repos.aborted
    modifies repos`db, repos`aborted
    ensures Carried(old(repos.db), repos.db, tx, w, Kept, s, r)
    ensures r.Success? ==> !repos.aborted
  {
    var processed := tx.MarkProcessed(w.balance, None, s.now);
    if processed.Failure? {
      return Failure(processed.error);
    }
    var u := repos.UpdateTransaction(processed.value);
    match u {
      case Failure(e) => return Failure(e);
      case Success(_) =>
    }
    repos.InsertOutbox(NewProcessed(s.ids.event1, processed.value, w.balance, s.correlationId, s.now));
    return Success(WagerResult(processed.value, w.balance, false));
  }

  /** Wallet, ledger, row, retry and both events; the wallet write never meets a newer version. */
  method CommitMovement(repos: Repositories, tx: WagerTx, mov: Movement, expectedVersion: int, reference: Option<Id>,
                        s: Stamp, ghost w: Wallet)
    returns (r: Result<WagerResult, Error>)
    requires !repos.aborted
    requires w.id in repos.db.wallets && repos.db.wallets[w.id] == w && expectedVersion == w.version
    requires mov.wallet == w.(balance := mov.wallet.balance, version := w.version + 1, updatedAt := s.now)
    requires mov.wallet.balance.currency == w.balance.currency
    modifies repos`db, repos`aborted
    ensures Carried(old(repos.db), repos.db, tx, w, Moved(mov, reference), s, r)
    ensures r.Success? ==> !repos.aborted
  {
    var processed := tx.MarkProcessed(mov.wallet.balance, reference, s.now);
    if processed.Failure? {
      return Failure(processed.error);
    }
    var uw := repos.UpdateWallet(mov.wallet, expectedVersion);
    match uw {
      case Failure(e) => return Failure(e);
      case Success(_) =>
    }
    assert repos.db.wallets[w.id] == mov.wallet;
    var il := repos.InsertLedger(mov.entry);
    match il {
      case Failure(e) => return Failure(e);
      case Success(_) =>
    }
    assert repos.db == Posted(old(repos.db), mov);
    var u := repos.UpdateTransaction(processed.value);
    match u {
      case Failure(e) => return Failure(e);
      case Success(_) =>
    }
    repos.DeleteRetry(processed.value.id);
    repos.InsertOutbox(NewProcessed(s.ids.event1, processed.value, mov.wallet.balance, s.correlationId, s.now));
    repos.InsertOutbox(NewBalanceChanged(s.ids.event2, mov.entry, mov.wallet.version, s.correlationId, s.now));
    return Success(WagerResult(processed.value, mov.wallet.balance, false));
  }

  method RejectAndPersist(repos: Repositories, tx: WagerTx, w: Wallet, code: Code, s: Stamp)
    returns (r: Result<WagerResult, Error>)
    requires !repos.aborted
    modifies repos`db, repos`aborted
    ensures Carried(old(repos.db), repos.db, tx, w, Refused(code), s, r)
    ensures r.Success? ==> !repos.aborted
  {
    var marked := tx.MarkRejected(code, s.now);
    if marked.Failure? {
      return Failure(marked.error);
    }
    var rejected := SetResultBalance(marked.value, w.balance.amountMinor);
    var u := repos.UpdateTransaction(rejected);
    match u {
      case Failure(e) => return Failure(e);
      case Success(_) =>
    }
    repos.DeleteRetry(rejected.id);
    repos.InsertOutbox(NewRejected(s.ids.event1, rejected, s.correlationId, s.now));
    return Success(WagerResult(rejected, w.balance, false));
  }
}

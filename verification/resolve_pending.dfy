/** Retrying a parked reversal (internal/app/resolve_pending.go). */
module AppResolve {
  import opened Wrappers
  import opened Apperr
  import opened DomainMoney
  import opened DomainWagering
  import opened DomainWallet
  import opened DomainEvent
  import opened Postgres
  import opened AppProcess

  /** Either another attempt is scheduled, or the reversal lands. */
  datatype Resolution = Again | Final(landing: Landing)

  function MaxAttempts(configured: int): (m: int)
    ensures m > 0
  {
    if configured <= 0 then DEFAULT_REFERENCE_MAX_TRIES else configured
  }

  predicate Exhausted(retry: Retry, max: int, now: int) {
    now > retry.expiresAt || retry.attempts + 1 >= max
  }

  /** 2^n seconds. */
  function Shifted(n: nat): int {
    if n == 0 then SECOND else 2 * Shifted(n - 1)
  }

  /** The pause after the given attempt: doubling, capped at the eighth. */
  function Backoff(attempts: nat): int {
    Shifted(if attempts > 8 then 8 else attempts)
  }

  function Rescheduled(retry: Retry, now: int): Retry {
    var attempts := retry.attempts + 1;
    retry.(attempts := attempts, nextAttemptAt := now + Backoff(if attempts < 0 then 0 else attempts), updatedAt := now)
  }

  /** An unsettled reference costs an attempt; a settled one is judged as on arrival. */
  function ResolutionFor(db: Database, tx: WagerTx, retry: Retry, w: Wallet, max: int, s: Stamp): Resolution {
    var ref := ReferenceOf(db, tx);
    if Unsettled(ref) then
      if Exhausted(retry, max, s.now) then Final(Refused(ReferenceNotFound)) else Again
    else
      Final(Land(w, tx, JudgeReference(tx, ref, AlreadyReversed(db, ref)), s.ids.entry, s.now))
  }

  /** One resolver execution against the tables. */
  function Resolve(db: Database, txId: Id, max: int, s: Stamp): Result<Database, Error> {
    if txId !in db.txs then
      Failure(Domain(InvalidInput))
    else if db.txs[txId].status != PendingReference then
      Success(db)
    else if db.txs[txId].walletId !in db.wallets then
      Failure(Domain(WalletNotFound))
    else
      var tx := db.txs[txId];
      var w := db.wallets[tx.walletId];
      if tx.id !in db.retries then
        Write(db, tx, w, Refused(ReferenceNotFound), s)
      else
        match ResolutionFor(db, tx, db.retries[tx.id], w, max, s)
        case Again => Success(db.(retries := db.retries[tx.id := Rescheduled(db.retries[tx.id], s.now)]))
        case Final(l) => Write(db, tx, w, l, s)
  }

  /** ResolvePendingReference.Execute inside one SQL transaction. */
  method ResolveInTx(repos: Repositories, transactionId: Id, configuredMax: int, s: Stamp) returns (r: Result<(), Error>)
    requires repos.db.Keyed() && !repos.aborted && s.Usable()
    requires forall id | id in repos.db.retries :: repos.db.retries[id].attempts >= 0
    modifies repos`db, repos`aborted
    ensures match Resolve(old(repos.db), transactionId, MaxAttempts(configuredMax), s)
      case Success(d) => r == Success(()) && repos.db == d && !repos.aborted
      case Failure(e) => r == Failure(e)
  {
    var maxAttempts := configuredMax;
    if maxAttempts <= 0 {
      maxAttempts := DEFAULT_REFERENCE_MAX_TRIES;
    }
    var first := repos.GetTransaction(transactionId);
    if first.Failure? {
      return Failure(first.error);
    }
    if first.value.status != PendingReference {
      return Success(());
    }
    if first.value.id !in repos.db.retries {
      r := RejectNotFound(repos, first.value, s);
      return;
    }
    var retry := repos.db.retries[first.value.id];
    var locked := repos.GetWallet(first.value.walletId);
    if locked.Failure? {
      return Failure(locked.error);
    }
    var w := locked.value;

    // Another worker may have finished while this one waited on the wallet lock.
    var again := repos.GetTransaction(transactionId);
    match again {
      case Failure(e) => return Failure(e);
      case Success(tx) =>
        if tx.status == PendingReference {
          r := ResolveLocked(repos, tx, retry, w, maxAttempts, s);
        } else {
          return Success(());
        }
    }
  }

  /** The part under the wallet lock. */
  method ResolveLocked(repos: Repositories, tx: WagerTx, retry: Retry, w: Wallet, maxAttempts: int, s: Stamp)
    returns (r: Result<(), Error>)
    requires !repos.aborted && s.Usable() && retry.attempts >= 0
    requires w.id in repos.db.wallets && repos.db.wallets[w.id] == w
    modifies repos`db, repos`aborted
    ensures match ResolutionFor(old(repos.db), tx, retry, w, maxAttempts, s)
      case Again => r == Success(()) && !repos.aborted &&
        repos.db == old(repos.db).(retries := old(repos.db).retries[tx.id := Rescheduled(retry, s.now)])
      case Final(l) =>
        match Write(old(repos.db), tx, w, l, s)
        case Success(d) => r == Success(()) && repos.db == d && !repos.aborted
        case Failure(e) => r == Failure(e)
  {
    var found := repos.db.ByExternalId(tx.providerId, tx.referenceExternalId);
    if found.None? || found.value.status == PendingReference || found.value.status == Pending {
      if s.now > retry.expiresAt || retry.attempts + 1 >= maxAttempts {
        r := RejectWithCode(repos, tx, w, ReferenceNotFound, s);
        return;
      }
      ScheduleRetry(repos, tx.id, retry, s.now);
      return Success(());
    }
    var ref := found.value;
    if ref.status == Rejected || ref.status == Failed {
      r := RejectWithCode(repos, tx, w, ReferenceNotProcessed, s);
      return;
    }
    var mismatch := Mismatch(tx, ref);
    if mismatch.Some? {
      r := RejectWithCode(repos, tx, w, mismatch.value, s);
      return;
    }
    if repos.db.Reversed(ref.id) {
      r := RejectWithCode(repos, tx, w, ReferenceAlreadyReversed, s);
      return;
    }
    match ref.kind {
      case Bet =>
        var applied := ApplyCreditWithRef(repos, tx, w, Some(ref.id), s);
        r := Unit(applied);
      case Win | Refund =>
        if tx.kind != Rollback {
          r := RejectWithCode(repos, tx, w, ReferenceNotReversible, s);
        } else {
          var applied := ApplyDebitWithRef(repos, tx, w, Some(ref.id), ReversalInsufficientFunds, s);
          r := Unit(applied);
        }
      case _ =>
        r := RejectWithCode(repos, tx, w, ReferenceNotReversible, s);
    }
  }

  /** The resolver discards the result it does not report. */
  function Unit<T>(r: Result<T, Error>): Result<(), Error> {
    match r
    case Success(_) => Success(())
    case Failure(e) => Failure(e)
  }

  method ScheduleRetry(repos: Repositories, id: Id, retry: Retry, now: int)
    requires retry.attempts >= 0
    modifies repos`db, repos`aborted
    ensures repos.db == old(repos.db).(retries := old(repos.db).retries[id := Rescheduled(retry, now)])
    ensures repos.aborted == old(repos.aborted)
  {
    var attempts := retry.attempts + 1;
    var shift := attempts;
    if shift > 8 {
      shift := 8;
    }
    var backoff := Shifted(shift);
    repos.UpsertRetry(id, attempts, now + backoff, retry.expiresAt, now);
  }

  method RejectNotFound(repos: Repositories, tx: WagerTx, s: Stamp) returns (r: Result<(), Error>)
    requires !repos.aborted
    modifies repos`db, repos`aborted
    ensures tx.walletId in old(repos.db).wallets ==>
      match Write(old(repos.db), tx, old(repos.db).wallets[tx.walletId], Refused(ReferenceNotFound), s)
      case Success(d) => r == Success(()) && repos.db == d && !repos.aborted
      case Failure(e) => r == Failure(e)
    ensures tx.walletId !in old(repos.db).wallets ==> r == Failure(Domain(WalletNotFound))
  {
    var w := repos.GetWallet(tx.walletId);
    if w.Failure? {
      return Failure(w.error);
    }
    r := RejectWithCode(repos, tx, w.value, ReferenceNotFound, s);
  }

  method RejectWithCode(repos: Repositories, tx: WagerTx, w: Wallet, code: Code, s: Stamp) returns (r: Result<(), Error>)
    requires !repos.aborted
    modifies repos`db, repos`aborted
    ensures match Write(old(repos.db), tx, w, Refused(code), s)
      case Success(d) => r == Success(()) && repos.db == d && !repos.aborted
      case Failure(e) => r == Failure(e)
  {
    var marked := tx.MarkRejected(code, s.now);
    if marked.Failure? {
      return Failure(marked.error);
    }
    var rejected := SetResultBalance(marked.value, w.balance.amountMinor);
    var u := repos.UpdateTransaction(rejected);
    match u {
      case Failure(e) => return Failure(e);
      case Success(_) =>
    }
    repos.DeleteRetry(rejected.id);
    repos.InsertOutbox(NewRejected(s.ids.event1, rejected, s.correlationId, s.now));
    return Success(());
  }
}

/** The wallet aggregate and its ledger lines (internal/domain/wallet/wallet.go). */
module DomainWallet {
  import opened Wrappers
  import opened Apperr
  import opened DomainMoney
  import opened DomainWagering

  datatype Direction = Debit | Credit

  datatype LedgerEntry = LedgerEntry(
    id: Id,
    walletId: Id,
    transactionId: Id,
    direction: Direction,
    amount: Money,
    balanceBefore: Money,
    balanceAfter: Money,
    createdAt: int)
  {
    /** What the entry adds to the balance. */
    function Net(): int {
      if direction == Credit then amount.amountMinor as int else -(amount.amountMinor as int)
    }

    /** The constraints of the ledger table. */
    predicate Sound() {
      && amount.IsPositive()
      && amount.currency == balanceBefore.currency == balanceAfter.currency
      && balanceAfter.amountMinor == balanceBefore.amountMinor + Net()
      && balanceAfter.amountMinor >= 0
    }
  }

  /** Refuses every line whose amounts do not add up; a line it builds is sound. */
  function NewLedgerEntry(id: Id, walletId: Id, transactionId: Id, direction: Direction, amount: Money,
                          balanceBefore: Money, balanceAfter: Money, createdAt: int): (r: Result<LedgerEntry, Error>)
    ensures r.Success? <==>
      id != NIL && walletId != NIL && transactionId != NIL &&
      LedgerEntry(id, walletId, transactionId, direction, amount, balanceBefore, balanceAfter, createdAt).Sound()
    ensures r.Success? ==>
      r.value == LedgerEntry(id, walletId, transactionId, direction, amount, balanceBefore, balanceAfter, createdAt)
  {
    if id == NIL || walletId == NIL || transactionId == NIL then
      Failure(Domain(InvalidInput))
    else if !amount.IsPositive() then
      Failure(Domain(Code.InvalidAmount))
    else if amount.currency != balanceBefore.currency || amount.currency != balanceAfter.currency then
      Failure(Domain(Code.CurrencyMismatch))
    else
      var expected :- if direction == Credit then balanceBefore.Add(amount) else balanceBefore.Sub(amount);
      if expected != balanceAfter then
        Failure(Domain(InvalidInput))
      else if balanceAfter.IsNegative() then
        Failure(Domain(InsufficientFunds))
      else
        Success(LedgerEntry(id, walletId, transactionId, direction, amount, balanceBefore, balanceAfter, createdAt))
  }

  datatype Movement = Movement(wallet: Wallet, entry: LedgerEntry)

  datatype Wallet = Wallet(id: Id, playerId: Id, balance: Money, version: int, createdAt: int, updatedAt: int) {

    /** Moves the balance up by exactly the amount and records it, unless the sum leaves int64. */
    function Credited(entryId: Id, txId: Id, amount: Money, now: int): (r: Result<Movement, Error>)
      ensures r.Success? <==>
        && amount.currency == balance.currency && amount.IsPositive()
        && Fits(balance.amountMinor + amount.amountMinor) && balance.amountMinor + amount.amountMinor >= 0
        && id != NIL && entryId != NIL && txId != NIL
      ensures r.Success? ==> IsMovement(r.value, entryId, txId, Credit, amount, now)
      ensures r.Failure? ==> r.error.Domain? && r.error.code != Conflict
    {
      if amount.currency != balance.currency then
        Failure(Domain(Code.CurrencyMismatch))
      else if !amount.IsPositive() then
        Failure(Domain(Code.InvalidAmount))
      else
        match balance.Add(amount)
        case Failure(e) => Failure(e)
        case Success(after) =>
          match NewLedgerEntry(entryId, id, txId, Credit, amount, balance, after, now)
          case Failure(e) => Failure(e)
          case Success(entry) =>
            Success(Movement(this.(balance := after, version := version + 1, updatedAt := now), entry))
    }

    /** Moves the balance down by exactly the amount and records it, unless it would go below zero. */
    function Debited(entryId: Id, txId: Id, amount: Money, now: int): (r: Result<Movement, Error>)
      ensures r.Success? <==>
        && amount.currency == balance.currency && amount.IsPositive() && balance.amountMinor >= amount.amountMinor
        && id != NIL && entryId != NIL && txId != NIL
      ensures r.Success? ==> IsMovement(r.value, entryId, txId, Debit, amount, now)
      ensures r == Failure(Domain(InsufficientFunds)) <==>
        amount.currency == balance.currency && amount.IsPositive() && balance.amountMinor < amount.amountMinor
      ensures r.Failure? ==> r.error.Domain? && r.error.code != Conflict
    {
      if amount.currency != balance.currency then
        Failure(Domain(Code.CurrencyMismatch))
      else if !amount.IsPositive() then
        Failure(Domain(Code.InvalidAmount))
      else if balance.amountMinor < amount.amountMinor then
        Failure(Domain(InsufficientFunds))
      else
        match balance.Sub(amount)
        case Failure(e) => Failure(e)
        case Success(after) =>
          match NewLedgerEntry(entryId, id, txId, Debit, amount, balance, after, now)
          case Failure(e) => Failure(e)
          case Success(entry) =>
            Success(Movement(this.(balance := after, version := version + 1, updatedAt := now), entry))
    }

    /** m takes this wallet one version further by one sound ledger line. */
    predicate IsMovement(m: Movement, entryId: Id, txId: Id, direction: Direction, amount: Money, now: int) {
      && m.entry.Sound()
      && m.entry == LedgerEntry(entryId, id, txId, direction, amount, balance, m.wallet.balance, now)
      && m.wallet == this.(balance := m.wallet.balance, version := version + 1, updatedAt := now)
    }
  }

  function Create(id: Id, playerId: Id, initial: Money, now: int): (r: Result<Wallet, Error>)
    ensures r.Success? <==> id != NIL && playerId != NIL && !initial.IsNegative()
    ensures r.Success? ==> r.value == Wallet(id, playerId, initial, 1, now, now)
  {
    if id == NIL || playerId == NIL then
      Failure(Domain(InvalidInput))
    else if initial.IsNegative() then
      Failure(Domain(Code.InvalidAmount))
    else
      Success(Wallet(id, playerId, initial, 1, now, now))
  }
}

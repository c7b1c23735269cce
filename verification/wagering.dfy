/**
 Wager transactions, their status transitions and the canonical payload hash
 (internal/domain/wagering/transaction.go).
 */
module DomainWagering {
  import opened Wrappers
  import opened Apperr
  import opened DomainMoney

  /** A UUID; the supply of new ones hands out values never used before. */
  type Id = nat

  const NIL: Id := 0

  /** Unknown carries any other text an edge may pass on as a kind. */
  datatype Kind = Opening | Bet | Win | Loss | Refund | Rollback | Unknown(name: string)

  datatype Status = Pending | PendingReference | Processed | Rejected | Failed {
    predicate IsTerminal() {
      this in {Processed, Rejected, Failed}
    }
  }

  datatype Origin = External | Internal

  /** What the edge hands to the use case. */
  datatype WagerInput = WagerInput(
    providerId: string,
    externalId: string,
    idempotencyKey: string,
    playerId: Id,
    walletId: Id,
    roundId: string,
    gameId: string,
    kind: Kind,
    money: Money,
    referenceExternalId: string,
    correlationId: string,
    referenceTTL: int)

  /**
   The canonical hash, taken to be injective: it is the hashed document itself, which
   leaves the reference out when there is none.
   */
  datatype PayloadHash = PayloadHash(
    providerId: string,
    externalId: string,
    playerId: Id,
    walletId: Id,
    roundId: string,
    gameId: string,
    kind: Kind,
    amountMinor: int64,
    currency: Currency,
    reference: Option<string>)

  function CanonicalHash(input: WagerInput): PayloadHash {
    PayloadHash(input.providerId, input.externalId, input.playerId, input.walletId, input.roundId, input.gameId,
                input.kind, input.money.amountMinor, input.money.currency,
                if input.referenceExternalId == "" then None else Some(input.referenceExternalId))
  }

  datatype WagerTx = WagerTx(
    id: Id,
    origin: Origin,
    providerId: string,
    externalId: string,
    idempotencyKey: string,
    payloadHash: Option<PayloadHash>,
    walletId: Id,
    playerId: Id,
    roundId: string,
    gameId: string,
    kind: Kind,
    amount: Money,
    referenceExternalId: string,
    referenceId: Option<Id>,
    status: Status,
    failureCode: Option<Code>,
    resultBalance: Option<int64>,
    createdAt: int,
    updatedAt: int)
  {
    /** The table of allowed transitions; terminal states have no successor. */
    predicate CanBecome(to: Status) {
      match status
      case Pending => to in {Status.PendingReference, Status.Processed, Status.Rejected, Status.Failed}
      case PendingReference => to in {Status.Processed, Status.Rejected, Status.Failed}
      case _ => false
    }

    function MarkPendingReference(now: int): Result<WagerTx, Error> {
      if CanBecome(Status.PendingReference)
      then Success(this.(status := Status.PendingReference, updatedAt := now))
      else Failure(Domain(InvalidInput))
    }

    function MarkProcessed(balance: Money, reference: Option<Id>, now: int): Result<WagerTx, Error> {
      if !CanBecome(Status.Processed) then
        Failure(Domain(InvalidInput))
      else if balance.currency != amount.currency then
        Failure(Domain(Code.CurrencyMismatch))
      else
        Success(this.(status := Status.Processed, resultBalance := Some(balance.amountMinor),
                      referenceId := reference, updatedAt := now))
    }

    function MarkRejected(code: Code, now: int): Result<WagerTx, Error> {
      if CanBecome(Status.Rejected)
      then Success(this.(status := Status.Rejected, failureCode := Some(code), updatedAt := now))
      else Failure(Domain(InvalidInput))
    }

    function MarkFailed(code: Code, now: int): Result<WagerTx, Error> {
      if CanBecome(Status.Failed)
      then Success(this.(status := Status.Failed, failureCode := Some(code), updatedAt := now))
      else Failure(Domain(InvalidInput))
    }

    /** REFUND and ROLLBACK. */
    predicate IsReversal() {
      kind == Refund || kind == Rollback
    }
  }

  predicate NeedsReference(kind: Kind) {
    kind == Refund || kind == Rollback
  }

  /** BET, WIN, REFUND and ROLLBACK move money; LOSS records that none moved. */
  function ValidateExternalKindAmount(kind: Kind, amount: Money): Result<(), Error> {
    match kind
    case Bet | Win | Refund | Rollback =>
      if amount.IsPositive() then Success(()) else Failure(Domain(Code.InvalidAmount))
    case Loss =>
      if amount.IsZero() then Success(()) else Failure(Domain(Code.InvalidAmount))
    case _ => Failure(Domain(KindNotAllowed))
  }

  function NewExternal(id: Id, hash: PayloadHash, input: WagerInput, now: int): Result<WagerTx, Error> {
    if input.kind == Opening then
      Failure(Domain(KindNotAllowed))
    else
      var _ :- ValidateExternalKindAmount(input.kind, input.money);
      if id == NIL || input.walletId == NIL || input.playerId == NIL then
        Failure(Domain(InvalidInput))
      else if input.providerId == "" || input.externalId == "" || input.idempotencyKey == "" then
        Failure(Domain(InvalidInput))
      else if input.roundId == "" || input.gameId == "" then
        Failure(Domain(InvalidInput))
      else if NeedsReference(input.kind) && input.referenceExternalId == "" then
        Failure(Domain(InvalidInput))
      else
        Success(WagerTx(id, External, input.providerId, input.externalId, input.idempotencyKey, Some(hash),
                        input.walletId, input.playerId, input.roundId, input.gameId, input.kind, input.money,
                        input.referenceExternalId, None, Pending, None, None, now, now))
  }

  function NewOpening(id: Id, walletId: Id, playerId: Id, amount: Money, now: int): Result<WagerTx, Error> {
    if id == NIL || walletId == NIL || playerId == NIL then
      Failure(Domain(InvalidInput))
    else if !amount.IsPositive() then
      Failure(Domain(Code.InvalidAmount))
    else
      Success(WagerTx(id, Internal, "", "", "", None, walletId, playerId, "", "", Opening, amount,
                      "", None, Pending, None, None, now, now))
  }

  /** The same hash means the same business payload, whatever the key and the transport. */
  lemma HashIdentifiesPayload(a: WagerInput, b: WagerInput)
    requires CanonicalHash(a) == CanonicalHash(b)
    ensures a == b.(idempotencyKey := a.idempotencyKey, correlationId := a.correlationId, referenceTTL := a.referenceTTL)
  {
    assert a.money == Money(CanonicalHash(a).amountMinor, CanonicalHash(a).currency) == b.money;
    assert a.referenceExternalId == (match CanonicalHash(a).reference case None => "" case Some(e) => e);
  }

  /** The hash tells requests apart by their business payload, and by nothing else. */
  lemma SameHashExactly(a: WagerInput, b: WagerInput)
    ensures CanonicalHash(a) == CanonicalHash(b) <==>
      && a.providerId == b.providerId && a.externalId == b.externalId && a.playerId == b.playerId && a.walletId == b.walletId
      && a.roundId == b.roundId && a.gameId == b.gameId && a.kind == b.kind && a.money == b.money
      && a.referenceExternalId == b.referenceExternalId
  {
    if CanonicalHash(a) == CanonicalHash(b) {
      HashIdentifiesPayload(a, b);
    }
  }

  /** No sequence of marks leaves a terminal status, and no mark ever returns to PENDING. */
  lemma TransitionsAreForward(t: WagerTx, code: Code, balance: Money, reference: Option<Id>, now: int)
    ensures forall r: Result<WagerTx, Error> |
      r in {t.MarkPendingReference(now), t.MarkProcessed(balance, reference, now), t.MarkRejected(code, now), t.MarkFailed(code, now)} ::
      && (t.status.IsTerminal() ==> r.Failure?)
      && (r.Success? ==> r.value.status != Pending && r.value.status != t.status)
  {
  }
}

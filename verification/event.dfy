/** Integration events (internal/domain/event/event.go). */
module DomainEvent {
  import opened Wrappers
  import opened Apperr
  import opened DomainMoney
  import opened DomainWagering
  import opened DomainWallet

  datatype EventData =
    | TransactionProcessed(transactionId: Id, providerId: string, externalId: string, walletId: Id, playerId: Id,
                           kind: Kind, money: Money, status: Status, balance: Money)
    | TransactionRejected(transactionId: Id, providerId: string, externalId: string, walletId: Id,
                          kind: Kind, code: Option<Code>)
    | BalanceChanged(walletId: Id, transactionId: Id, direction: Direction, money: Money,
                     before: Money, after: Money, walletVersion: int)
    | TransactionPendingReference(transactionId: Id, providerId: string, externalId: string,
                                  referenceExternalId: string, kind: Kind)

  datatype Envelope = Envelope(id: Id, aggregateId: Id, correlationId: string, occurredAt: int, data: EventData)

  function ProcessedData(tx: WagerTx, balance: Money): EventData {
    TransactionProcessed(tx.id, tx.providerId, tx.externalId, tx.walletId, tx.playerId, tx.kind, tx.amount, tx.status, balance)
  }

  function RejectedData(tx: WagerTx): EventData {
    TransactionRejected(tx.id, tx.providerId, tx.externalId, tx.walletId, tx.kind, tx.failureCode)
  }

  function ChangedData(e: LedgerEntry, version: int): EventData {
    BalanceChanged(e.walletId, e.transactionId, e.direction, e.amount, e.balanceBefore, e.balanceAfter, version)
  }

  function PendingData(tx: WagerTx): EventData {
    TransactionPendingReference(tx.id, tx.providerId, tx.externalId, tx.referenceExternalId, tx.kind)
  }

  function NewProcessed(id: Id, tx: WagerTx, balance: Money, correlationId: string, now: int): Envelope {
    Envelope(id, tx.id, correlationId, now, ProcessedData(tx, balance))
  }

  function NewRejected(id: Id, tx: WagerTx, correlationId: string, now: int): Envelope {
    Envelope(id, tx.id, correlationId, now, RejectedData(tx))
  }

  function NewBalanceChanged(id: Id, e: LedgerEntry, version: int, correlationId: string, now: int): Envelope {
    Envelope(id, e.walletId, correlationId, now, ChangedData(e, version))
  }

  function NewPendingReference(id: Id, tx: WagerTx, correlationId: string, now: int): Envelope {
    Envelope(id, tx.id, correlationId, now, PendingData(tx))
  }
}

/** Opening a wallet (internal/app/open_wallet.go). */
module AppOpen {
  import opened Wrappers
  import opened Apperr
  import opened DomainMoney
  import opened DomainWagering
  import opened DomainWallet
  import opened DomainEvent
  import opened Postgres
  import opened AppProcess

  datatype OpenInput = OpenInput(playerId: Id, initial: Money, walletId: Id, txId: Id)

  function OpeningRow(input: OpenInput, now: int): WagerTx {
    WagerTx(input.txId, Internal, "", "", "", None, input.walletId, input.playerId, "", "", Opening, input.initial,
            "", None, Processed, None, Some(input.initial.amountMinor), now, now)
  }

  function OpeningLine(input: OpenInput, s: Stamp): LedgerEntry {
    LedgerEntry(s.ids.entry, input.walletId, input.txId, Credit, input.initial,
                Money(0, input.initial.currency), input.initial, s.now)
  }

  function OpenedWallet(input: OpenInput, now: int): Wallet {
    Wallet(input.walletId, input.playerId, input.initial, 1, now, now)
  }

  /** The tables once the wallet exists: with money, one opening row, one line and two events. */
  function Opened(db: Database, input: OpenInput, s: Stamp): Database {
    var w := OpenedWallet(input, s.now);
    var d := db.(wallets := db.wallets[w.id := w], owners := db.owners[(w.playerId, w.balance.currency) := w.id]);
    if input.initial.IsPositive() then
      var t := OpeningRow(input, s.now);
      var e := OpeningLine(input, s);
      d.(txs := d.txs[t.id := t], ledger := d.ledger[w.id := d.Ledger(w.id) + [e]])
       .Emit(NewProcessed(s.ids.event1, t, input.initial, s.correlationId, s.now))
       .Emit(NewBalanceChanged(s.ids.event2, e, w.version, s.correlationId, s.now))
    else d
  }

  /** A player has one wallet per currency; the ids come from the UUID supply. */
  function Open(db: Database, input: OpenInput, s: Stamp): Result<Database, Error> {
    if input.playerId == NIL then
      Failure(Domain(InvalidInput))
    else if input.initial.IsNegative() then
      Failure(Domain(Code.InvalidAmount))
    else if input.walletId in db.wallets || (input.playerId, input.initial.currency) in db.owners then
      Failure(Domain(Conflict))
    else if input.initial.IsPositive() && (input.txId in db.txs || db.HasEntry(input.walletId, input.txId)) then
      Failure(Sql(UniqueViolation))
    else
      Success(Opened(db, input, s))
  }

  method OpenInTx(repos: Repositories, input: OpenInput, s: Stamp) returns (r: Result<Wallet, Error>)
    requires !repos.aborted && s.Usable() && input.walletId != NIL && input.txId != NIL
    modifies repos`db, repos`aborted
    ensures match Open(old(repos.db), input, s)
      case Success(d) => r == Success(OpenedWallet(input, s.now)) && repos.db == d && !repos.aborted
      case Failure(e) => r == Failure(e)
  {
    if input.playerId == NIL {
      return Failure(Domain(InvalidInput));
    }
    if input.initial.IsNegative() {
      return Failure(Domain(Code.InvalidAmount));
    }
    var created := Create(input.walletId, input.playerId, input.initial, s.now);
    match created {
      case Failure(e) => return Failure(e);
      case Success(w) =>
        var inserted := repos.InsertWallet(w);
        if inserted.Failure? {
          return Failure(inserted.error);
        }
        if input.initial.IsPositive() {
          var opening := NewOpening(input.txId, w.id, w.playerId, input.initial, s.now);
          match opening {
            case Failure(e) => return Failure(e);
            case Success(pending) =>
              var marked := pending.MarkProcessed(input.initial, None, s.now);
              match marked {
                case Failure(e) => return Failure(e);
                case Success(processed) =>
                  r := RecordOpening(repos, input, w, processed, s);
                  return;
              }
          }
        }
        return Success(w);
    }
  }

  /** The rows and events of a positive opening. */
  method RecordOpening(repos: Repositories, input: OpenInput, w: Wallet, opening: WagerTx, s: Stamp)
    returns (r: Result<Wallet, Error>)
    requires !repos.aborted && s.Usable() && input.walletId != NIL && input.txId != NIL && input.initial.IsPositive()
    requires w == OpenedWallet(input, s.now) && opening == OpeningRow(input, s.now)
    modifies repos`db, repos`aborted
    ensures opening.id in old(repos.db).txs || old(repos.db).HasEntry(w.id, opening.id) ==>
      r == Failure(Sql(UniqueViolation))
    ensures opening.id !in old(repos.db).txs && !old(repos.db).HasEntry(w.id, opening.id) ==>
      r == Success(w) && !repos.aborted &&
      repos.db == old(repos.db)
        .(txs := old(repos.db).txs[opening.id := opening],
          ledger := old(repos.db).ledger[w.id := old(repos.db).Ledger(w.id) + [OpeningLine(input, s)]])
        .Emit(NewProcessed(s.ids.event1, opening, input.initial, s.correlationId, s.now))
        .Emit(NewBalanceChanged(s.ids.event2, OpeningLine(input, s), w.version, s.correlationId, s.now))
  {
    var it := repos.InsertTransaction(opening);
    match it {
      case Failure(e) => return Failure(e);
      case Success(_) =>
    }
    var zero := Money(0, input.initial.currency);
    var line := NewLedgerEntry(s.ids.entry, w.id, opening.id, Credit, input.initial, zero, input.initial, s.now);
    match line {
      case Failure(e) => return Failure(e);
      case Success(entry) =>
        var il := repos.InsertLedger(entry);
        if il.Failure? {
          return Failure(il.error);
        }
        repos.InsertOutbox(NewProcessed(s.ids.event1, opening, input.initial, s.correlationId, s.now));
        repos.InsertOutbox(NewBalanceChanged(s.ids.event2, entry, w.version, s.correlationId, s.now));
        return Success(w);
    }
  }
}

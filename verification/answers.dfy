/**
 What every request is answered, told by its fields and by the committed rows alone: when it
 is refused before a transaction opens, when it meets a conflict or no wallet, what becomes of
 the delivery that carried it, and exactly what rows, lines and events it leaves.
 */
module Answers {
  import opened Wrappers
  import opened Apperr
  import opened DomainMoney
  import opened DomainWagering
  import opened DomainWallet
  import opened DomainEvent
  import opened Postgres
  import opened AppProcess
  import opened AppResolve
  import opened AppOpen
  import opened Invariants
  import opened Settlement
  import opened Openings
  import opened Runs
  import opened Replays
  import opened Parking
  import opened Outcomes
  import opened InboxTransaction

  // ----- before a transaction opens -----

  /** The five kinds a caller may ask for. */
  predicate IsExternalKind(kind: Kind) {
    kind == Bet || kind == Win || kind == Loss || kind == Refund || kind == Rollback
  }

  /** LOSS carries nothing, every other kind carries money. */
  predicate AmountFits(input: WagerInput) {
    if input.kind == Loss then input.money.amountMinor == 0 else input.money.amountMinor > 0
  }

  /** All that must be named is named. */
  predicate FieldsPresent(input: WagerInput, txId: Id) {
    && txId != 0 && input.walletId != 0 && input.playerId != 0
    && input.providerId != "" && input.externalId != "" && input.roundId != "" && input.gameId != ""
    && (input.kind == Refund || input.kind == Rollback ==> input.referenceExternalId != "")
  }

  /** A request is prepared exactly when it is well formed; the first thing wrong with it names the code. */
  lemma PreparedExactly(input: WagerInput, txId: Id, now: int)
    ensures Prepare(input, txId, now).Success? <==>
      input.idempotencyKey != "" && IsExternalKind(input.kind) && AmountFits(input) && FieldsPresent(input, txId)
    ensures Prepare(input, txId, now) ==
      if input.idempotencyKey == "" then Failure(Domain(InvalidInput))
      else if !IsExternalKind(input.kind) then Failure(Domain(KindNotAllowed))
      else if !AmountFits(input) then Failure(Domain(Code.InvalidAmount))
      else if !FieldsPresent(input, txId) then Failure(Domain(InvalidInput))
      else Success(WagerTx(txId, External, input.providerId, input.externalId, input.idempotencyKey,
                           Some(CanonicalHash(input)), input.walletId, input.playerId, input.roundId, input.gameId,
                           input.kind, input.money, input.referenceExternalId, None, Pending, None, None, now, now))
  {
  }

  // ----- known requests, unknown wallets -----

  /** Some committed row of this provider has the key. */
  ghost predicate KeyKnown(db: Database, input: WagerInput) {
    exists id | id in db.txs ::
      db.txs[id].origin == External && db.txs[id].providerId == input.providerId && db.txs[id].idempotencyKey == input.idempotencyKey
  }

  /** Some committed row of this provider has the external id. */
  ghost predicate ExternalKnown(db: Database, input: WagerInput) {
    exists id | id in db.txs ::
      db.txs[id].origin == External && db.txs[id].providerId == input.providerId && db.txs[id].externalId == input.externalId
  }

  /** The row with the key was another request. */
  ghost predicate KeyOfAnother(db: Database, input: WagerInput) {
    exists id | id in db.txs ::
      && db.txs[id].origin == External && db.txs[id].providerId == input.providerId
      && db.txs[id].idempotencyKey == input.idempotencyKey && db.txs[id].payloadHash != Some(CanonicalHash(input))
  }

  /** The row with the external id came with another key. */
  ghost predicate ExternalOfAnother(db: Database, input: WagerInput) {
    exists id | id in db.txs ::
      && db.txs[id].origin == External && db.txs[id].providerId == input.providerId
      && db.txs[id].externalId == input.externalId && db.txs[id].idempotencyKey != input.idempotencyKey
  }

  /** The two pre-reads answer by the rows. */
  lemma LookupsTell(db: Database, input: WagerInput)
    requires db.Keyed() && Indexed(db)
    ensures var held, taken := db.ByIdempotencyKey(input.providerId, input.idempotencyKey),
                               db.ByExternalId(input.providerId, input.externalId);
      && (held.Some? <==> KeyKnown(db, input)) && (taken.Some? <==> ExternalKnown(db, input))
      && (held.Some? && held.value.payloadHash != Some(CanonicalHash(input)) <==> KeyOfAnother(db, input))
      && (taken.Some? && taken.value.idempotencyKey != input.idempotencyKey <==> ExternalOfAnother(db, input))
      && (taken.Some? && taken.value.idempotencyKey == input.idempotencyKey ==> held == taken)
      && (held.Some? ==> held.value.id in db.txs && db.txs[held.value.id] == held.value)
  {
    var k, j := (input.providerId, input.idempotencyKey), (input.providerId, input.externalId);
    assert k in db.byKey ==> KeyEntry(db, k, db.byKey[k]);
    assert j in db.byExternal ==> ExternalEntry(db, j, db.byExternal[j]);
    assert forall id | id in db.txs && db.txs[id].origin == External :: RowIndexed(db, db.txs[id]);
  }

  ghost predicate New(db: Database, input: WagerInput, txId: Id) {
    !KeyKnown(db, input) && !ExternalKnown(db, input) && input.walletId in db.wallets && txId !in db.txs
  }

  /** A movement that errs has overflowed: nothing else goes wrong with a prepared request. */
  lemma ErrsIsOverflow(db: Database, tx: WagerTx, w: Wallet, s: Stamp)
    requires Owned(w, tx) ==> tx.amount.IsPositive() || tx.kind == Loss
    requires !w.balance.IsNegative() && w.id != NIL && tx.id != NIL && s.Usable()
    requires tx.kind != Opening && !tx.kind.Unknown?
    requires tx.kind == Loss ==> !tx.IsReversal()
    ensures Landed(db, tx, w, s).Stopped? ==> Landed(db, tx, w, s).error == Domain(Code.InvalidAmount)
  {
    hide ReferenceOf, Mismatch;
  }

  /** Settling is the answer to a new request, and fails only by an overflow. */
  lemma NewIsSettled(db: Database, input: WagerInput, txId: Id, s: Stamp)
    requires Inv(db, {}) && s.Usable() && Prepare(input, txId, s.now).Success? && txId !in db.wallets && New(db, input, txId)
    ensures !Durable(db, input)
    ensures var fate := RequestFate(db, input, db.wallets[input.walletId]);
      if fate.Errs? then Process(db, input, txId, s) == Failure(Domain(Code.InvalidAmount))
      else Process(db, input, txId, s).Success? && !Process(db, input, txId, s).value.result.replay
  {
    hide Inv, New, RequestFate, Landed, Settle, Enterable, Justified, Outcome, Process, LandsAs, Prepare, KeyKnown, ExternalKnown;
    NewParts(db, input, txId);
    var tx, st, w := Prepare(input, txId, s.now).value, s.(ttl := Ttl(input)), db.wallets[input.walletId];
    InvKeys(db, {});
    LookupsTell(db, input);
    PreparedRow(input, txId, s.now);
    EnterableHere(db, input, txId, s.now);
    WalletHere(db, input.walletId);
    FreshRequest(db, input, txId, s);
    SettleKeeps(db, tx, st);
    FateOfRequest(db, input, w, tx, st);
    FateStops(RequestFate(db, input, w), w, tx, Landed(db.Insert(tx), tx, w, st), st);
    ErrsIsOverflow(db.Insert(tx), tx, w, st);
    SettleError(db, tx, st);
  }

  lemma NewParts(db: Database, input: WagerInput, txId: Id)
    requires New(db, input, txId)
    ensures !KeyKnown(db, input) && !ExternalKnown(db, input) && input.walletId in db.wallets && txId !in db.txs
  {
  }

  lemma FateStops(f: Fate, w: Wallet, tx: WagerTx, l: Landing, s: Stamp)
    requires LandsAs(f, w, tx, l, s)
    ensures f.Errs? <==> l.Stopped?
  {
  }

  lemma SettleError(db: Database, pending: WagerTx, s: Stamp)
    requires pending.walletId in db.wallets
    ensures var l := Landed(db.Insert(pending), pending, db.wallets[pending.walletId], s);
      l.Stopped? ==> Settle(db, pending, s) == Failure(l.error)
  {
    hide Landed;
  }

  /**
   Every refusal of a prepared request. It meets a conflict if and only if its external id came
   with another key, its key carried another request, or it is new but its own row id is taken;
   it finds no wallet if and only if neither key nor external id is known and there is none; it
   errs if and only if it is new and its credit overflows. Nothing else fails.
   */
  lemma RefusedExactly(db: Database, input: WagerInput, txId: Id, s: Stamp)
    requires Inv(db, {}) && s.Usable() && Prepare(input, txId, s.now).Success? && txId !in db.wallets
    ensures var r, known := Process(db, input, txId, s), KeyKnown(db, input) || ExternalKnown(db, input);
      && (r == Failure(Domain(Conflict)) <==>
            || ExternalOfAnother(db, input) || KeyOfAnother(db, input)
            || (!known && input.walletId in db.wallets && txId in db.txs))
      && (r == Failure(Domain(WalletNotFound)) <==> !known && input.walletId !in db.wallets)
      && (r == Failure(Domain(Code.InvalidAmount)) <==>
            New(db, input, txId) && RequestFate(db, input, db.wallets[input.walletId]).Errs?)
      && (r.Failure? ==> r.error in {Domain(Conflict), Domain(WalletNotFound), Domain(Code.InvalidAmount)})
  {
    hide Inv, RequestFate, Settle, Prepare, KeyKnown, ExternalKnown, KeyOfAnother, ExternalOfAnother, Replay, Indexed;
    InvKeys(db, {});
    LookupsTell(db, input);
    PreparedRow(input, txId, s.now);
    var held := db.ByIdempotencyKey(input.providerId, input.idempotencyKey);
    if New(db, input, txId) {
      NewIsSettled(db, input, txId, s);
    }
    if held.Some? {
      StoredRowReplays(db, held.value, CanonicalHash(input));
    }
  }

  /** A stored row answers, or conflicts when it was another request's. */
  lemma StoredRowReplays(db: Database, existing: WagerTx, hash: PayloadHash)
    requires Inv(db, {}) && existing.id in db.txs && db.txs[existing.id] == existing
    ensures if existing.payloadHash == Some(hash) then Replay(db, existing, hash).Success?
            else Replay(db, existing, hash) == Failure(Domain(Conflict))
  {
    hide Indexed, Shapes, Reversals, Chains, Booked, Announced;
  }

  // ----- the first delivery of a message -----

  /**
   What a message does that the inbox does not know. A known request only records it; a
   request that is refused in any other way leaves tables and inbox as they are, so that the
   message comes again; a request that settles is recorded together with what it wrote.
   */
  lemma FirstDelivery(t: Tables, m: Message, txId: Id, s: Stamp)
    requires Inv(t.db, {}) && s.Usable() && m.id !in t.inbox && txId !in t.db.wallets
    ensures var r, inbox := Consume(t, m, txId, s), t.inbox[m.id := InboxRow(m.body, true)];
      match Prepare(m.input, txId, s.now)
      case Failure(e) => r == Failure(Broke(e))
      case Success(_) =>
        if KeyKnown(t.db, m.input) || ExternalKnown(t.db, m.input) then r == Success(Tables(t.db, inbox))
        else if m.input.walletId !in t.db.wallets then r == Failure(Broke(Domain(WalletNotFound)))
        else if txId in t.db.txs then r == Failure(Broke(Sql(InFailedTransaction)))
        else if RequestFate(t.db, m.input, t.db.wallets[m.input.walletId]).Errs? then r == Failure(Broke(Domain(Code.InvalidAmount)))
        else
          var p := Process(t.db, m.input, txId, s);
          p.Success? && !p.value.result.replay && r == Success(Tables(p.value.db, inbox))
  {
    hide Inv, RequestFate, Prepare, KeyKnown, ExternalKnown, KeyOfAnother, ExternalOfAnother, Handle, Indexed, RefusedByInsert;
    if Prepare(m.input, txId, s.now).Success? {
      RefusedExactly(t.db, m.input, txId, s);
      InsertRefuses(t.db, m.input, txId, s);
      if New(t.db, m.input, txId) {
        NewIsSettled(t.db, m.input, txId, s);
      } else if Process(t.db, m.input, txId, s).Success? {
        KnownIsReplayed(t.db, m.input, txId, s);
      }
      KeyConflictIsKnown(t.db, m.input);
    }
  }

  lemma KeyConflictIsKnown(db: Database, input: WagerInput)
    ensures KeyOfAnother(db, input) ==> KeyKnown(db, input)
    ensures ExternalOfAnother(db, input) ==> ExternalKnown(db, input)
  {
  }

  /** The INSERT raises the conflict exactly for a new request whose row id is taken. */
  lemma InsertRefuses(db: Database, input: WagerInput, txId: Id, s: Stamp)
    requires Inv(db, {}) && Prepare(input, txId, s.now).Success?
    ensures RefusedByInsert(db, Prepare(input, txId, s.now).value) <==>
      !KeyKnown(db, input) && !ExternalKnown(db, input) && input.walletId in db.wallets && txId in db.txs
  {
    hide Inv, Prepare, KeyKnown, ExternalKnown, KeyOfAnother, ExternalOfAnother, Indexed;
    InvKeys(db, {});
    LookupsTell(db, input);
    PreparedRow(input, txId, s.now);
  }

  lemma KnownIsReplayed(db: Database, input: WagerInput, txId: Id, s: Stamp)
    requires Inv(db, {}) && Process(db, input, txId, s).Success? && (KeyKnown(db, input) || ExternalKnown(db, input))
    ensures Process(db, input, txId, s).value.db == db
  {
    hide Inv, Prepare, KeyKnown, ExternalKnown, KeyOfAnother, ExternalOfAnother, Indexed, Settle, Replay;
    InvKeys(db, {});
    LookupsTell(db, input);
    PreparedRow(input, txId, s.now);
  }

  // ----- what a landing writes, column by column -----

  /** The event of a row that has reached this status. */
  function StatusEvent(t: WagerTx, balance: Money): EventData {
    match t.status
    case PendingReference => TransactionPendingReference(t.id, t.providerId, t.externalId, t.referenceExternalId, t.kind)
    case Rejected => TransactionRejected(t.id, t.providerId, t.externalId, t.walletId, t.kind, t.failureCode)
    case _ =>
      TransactionProcessed(t.id, t.providerId, t.externalId, t.walletId, t.playerId, t.kind, t.amount, Status.Processed, balance)
  }

  /** Only the decision's columns of the row change, stamped with the time, and one event tells the new status. */
  ghost predicate RowTold(db: Database, d: Database, tx: WagerTx, balance: Money, s: Stamp) {
    && tx.id in d.txs
    && var t := d.txs[tx.id];
       && d.txs == db.txs[tx.id := t]
       && t == tx.(status := t.status, failureCode := t.failureCode, resultBalance := t.resultBalance,
                   referenceId := t.referenceId, updatedAt := s.now)
       && t.status in {PendingReference, Status.Processed, Status.Rejected}
       && d.Events(tx.id) == db.Events(tx.id) +
            [Envelope(s.ids.event1, tx.id, s.correlationId, s.now, StatusEvent(t, balance))]
  }

  /** One version further by one line and one event, all with the ids and the time they were handed. */
  ghost predicate MoveTold(db: Database, d: Database, tx: WagerTx, w: Wallet, direction: Direction, s: Stamp) {
    && w.id in d.wallets && Fits(w.balance.amountMinor + (if direction == Credit then tx.amount.amountMinor else -(tx.amount.amountMinor as int)))
    && var after := Money(w.balance.amountMinor + (if direction == Credit then tx.amount.amountMinor else -(tx.amount.amountMinor as int)),
                          w.balance.currency);
       && d.wallets == db.wallets[w.id := Wallet(w.id, w.playerId, after, w.version + 1, w.createdAt, s.now)]
       && d.Ledger(w.id) == db.Ledger(w.id) +
            [LedgerEntry(s.ids.entry, w.id, tx.id, direction, tx.amount, w.balance, after, s.now)]
       && d.Events(w.id) == db.Events(w.id) +
            [Envelope(s.ids.event2, w.id, s.correlationId, s.now,
                      BalanceChanged(w.id, tx.id, direction, tx.amount, w.balance, after, w.version + 1))]
  }

  /** Everything a landing writes for this row on this wallet; no other row, wallet, ledger or event log is touched. */
  ghost predicate Told(db: Database, d: Database, tx: WagerTx, w: Wallet, s: Stamp) {
    && w.id in d.wallets && RowTold(db, d, tx, d.wallets[w.id].balance, s)
    && (forall id: Id | id != w.id :: d.Ledger(id) == db.Ledger(id))
    && (forall id: Id | id != w.id && id != tx.id :: d.Events(id) == db.Events(id))
    && (if d.txs[tx.id].status == Processed && tx.kind != Loss then exists direction :: MoveTold(db, d, tx, w, direction, s)
        else d.wallets == db.wallets && d.Ledger(w.id) == db.Ledger(w.id) && d.Events(w.id) == db.Events(w.id))
  }

  lemma LandingTells(db: Database, tx: WagerTx, w: Wallet, l: Landing, s: Stamp)
    requires tx.id in db.txs && w.id in db.wallets && db.wallets[w.id] == w && tx.id != w.id && Justified(db, tx, w, l, s)
    ensures Told(db, Outcome(db, tx, w, l, s), tx, w, s)
  {
    hide FinalRetries;
    if l.Moved? {
      LandingMoves(db, tx, w, l, s);
      hide Outcome, MoveTold;
      MovedRowTold(db, tx, w, l, s);
    }
  }

  lemma LandingMoves(db: Database, tx: WagerTx, w: Wallet, l: Landing, s: Stamp)
    requires tx.id in db.txs && w.id in db.wallets && db.wallets[w.id] == w && tx.id != w.id && l.Moved? && Justified(db, tx, w, l, s)
    ensures MoveTold(db, Outcome(db, tx, w, l, s), tx, w, l.movement.entry.direction, s)
  {
    hide FinalRetries, Mismatch;
  }

  lemma MovedRowTold(db: Database, tx: WagerTx, w: Wallet, l: Landing, s: Stamp)
    requires tx.id in db.txs && w.id in db.wallets && db.wallets[w.id] == w && tx.id != w.id && l.Moved? && Justified(db, tx, w, l, s)
    ensures var d := Outcome(db, tx, w, l, s);
      && w.id in d.wallets && RowTold(db, d, tx, d.wallets[w.id].balance, s) && d.txs[tx.id].status == Processed && tx.kind != Loss
      && (forall id: Id | id != w.id :: d.Ledger(id) == db.Ledger(id))
      && (forall id: Id | id != w.id && id != tx.id :: d.Events(id) == db.Events(id))
  {
    hide FinalRetries, Mismatch;
  }

  /** A new request's row carries its fields; it waits an hour, or as long as it says, from one second on; its event log is new. */
  lemma RequestTells(db: Database, input: WagerInput, txId: Id, s: Stamp)
    requires Inv(db, {}) && txId !in db.wallets
    requires Process(db, input, txId, s).Success? && !Process(db, input, txId, s).value.result.replay
    ensures input.walletId in db.wallets && txId !in db.txs && db.Events(txId) == []
    ensures var d, r := Process(db, input, txId, s).value.db, Process(db, input, txId, s).value.result;
      && Told(db, d, WagerTx(txId, External, input.providerId, input.externalId, input.idempotencyKey,
                             Some(CanonicalHash(input)), input.walletId, input.playerId, input.roundId, input.gameId,
                             input.kind, input.money, input.referenceExternalId, None, Pending, None, None, s.now, s.now),
              db.wallets[input.walletId], s)
      && r.tx == d.txs[txId] && r.balance == d.wallets[input.walletId].balance
      && d.retries == if r.tx.status != PendingReference then db.retries
           else db.retries[txId := Retry(0, s.now + 1_000_000_000,
                  s.now + (if input.referenceTTL <= 0 then 3600 * 1_000_000_000 else input.referenceTTL), s.now)]
  {
    hide Inv, Process, Landed, Justified, Outcome, Told, Enterable, Landable;
    SubmitAddsRow(db, input, txId, s);
    PreparedExactly(input, txId, s.now);
    var pending, st := Prepare(input, txId, s.now).value, s.(ttl := Ttl(input));
    NewRowFacts(db, pending);
    var w := db.wallets[pending.walletId];
    var e, l := db.Insert(pending), Landed(db.Insert(pending), pending, w, st);
    hide Prepare;
    LandingTells(e, pending, w, l, st);
    ToldOfNew(db, Outcome(e, pending, w, l, st), pending, w, s, st);
    LandingRetries(db, pending, w, l, st);
    BalanceTold(e, pending, w, l, st);
  }

  lemma NewRowFacts(db: Database, t: WagerTx)
    requires Inv(db, {}) && Enterable(db, t)
    ensures t.id !in db.txs && t.id !in db.retries && t.id !in db.outbox && t.id !in db.wallets
    ensures t.walletId in db.wallets && db.wallets[t.walletId].id == t.walletId
  {
    hide Indexed, Shapes, Reversals, Chains, Booked, Announced;
  }

  lemma ToldOfNew(db: Database, d: Database, tx: WagerTx, w: Wallet, s: Stamp, st: Stamp)
    requires Told(db.Insert(tx), d, tx, w, st) && tx.id !in db.outbox && st == s.(ttl := st.ttl)
    ensures Told(db, d, tx, w, s)
  {
    var e := db.Insert(tx);
    assert forall id: Id :: e.Ledger(id) == db.Ledger(id) && e.Events(id) == db.Events(id);
    assert RowTold(db, d, tx, d.wallets[w.id].balance, s);
    hide RowTold;
    if d.txs[tx.id].status == Processed && tx.kind != Loss {
      var direction :| MoveTold(e, d, tx, w, direction, st);
      assert MoveTold(db, d, tx, w, direction, s);
    }
  }

  lemma LandingRetries(db: Database, tx: WagerTx, w: Wallet, l: Landing, s: Stamp)
    requires tx.id !in db.retries && Justified(db.Insert(tx), tx, w, l, s)
    ensures var d := Outcome(db.Insert(tx), tx, w, l, s);
      && tx.id in d.txs
      && d.retries == if d.txs[tx.id].status != PendingReference then db.retries
           else db.retries[tx.id := Retry(0, s.now + 1_000_000_000, s.now + s.ttl, s.now)]
  {
    hide FinalOutbox, Mismatch;
    assert db.retries - {tx.id} == db.retries;
  }

  lemma BalanceTold(db: Database, tx: WagerTx, w: Wallet, l: Landing, s: Stamp)
    requires tx.id in db.txs && w.id in db.wallets && db.wallets[w.id] == w && Justified(db, tx, w, l, s)
    ensures var d := Outcome(db, tx, w, l, s);
      w.id in d.wallets && BalanceAfter(w, l) == d.wallets[w.id].balance && d.txs[tx.id] == FinalRow(tx, w, l, s.now)
  {
    hide FinalOutbox, FinalRetries, Mismatch, FinalRow;
  }

  // ----- what every execution of a parked row does -----

  /** The row the reversal names is there, and processed or rejected. */
  ghost predicate ReferenceSettled(db: Database, tx: WagerTx) {
    exists r | r in db.txs ::
      && db.txs[r].origin == External && db.txs[r].providerId == tx.providerId
      && db.txs[r].externalId == tx.referenceExternalId && db.txs[r].status in {Status.Processed, Status.Rejected}
  }

  /** 2, 4, 8, ... seconds after the first, second, third, ... attempt, and 256 from the eighth on. */
  function PauseAfter(attempts: nat): int {
    [1, 2, 4, 8, 16, 32, 64, 128, 256][if attempts < 8 then attempts else 8] * 1_000_000_000
  }

  /** The deadline has not passed, and this is not the last attempt. */
  predicate MayWait(retry: Retry, configured: int, now: int) {
    now <= retry.expiresAt && retry.attempts + 1 < (if configured <= 0 then 12 else configured)
  }

  lemma SettledByRows(db: Database, tx: WagerTx)
    requires Inv(db, {})
    ensures Unsettled(ReferenceOf(db, tx)) <==> !ReferenceSettled(db, tx)
  {
    hide Inv;
    InvKeys(db, {});
    FoundRow(db, tx);
    var k := (tx.providerId, tx.referenceExternalId);
    assert k in db.byExternal ==> ExternalEntry(db, k, db.byExternal[k]);
    forall id | id in db.txs && db.txs[id].origin == External
      ensures RowIndexed(db, db.txs[id])
    {
    }
    hide Indexed;
  }

  lemma PausesDouble(n: nat)
    ensures Backoff(n) == PauseAfter(n)
  {
    assert Shifted(4) == 16 * SECOND && Shifted(8) == 256 * SECOND by {
      assert Shifted(2) == 4 * SECOND;
      assert Shifted(6) == 4 * Shifted(4);
    }
    assert Shifted(5) == 32 * SECOND && Shifted(6) == 64 * SECOND && Shifted(7) == 128 * SECOND;
  }

  /**
   One execution of a parked row. While its reference is missing or has not settled, the row
   goes on waiting, one attempt further, if and only if attempts and deadline last, and is
   rejected with REFERENCE_NOT_FOUND otherwise. Once the reference is settled, no execution
   leaves it waiting.
   */
  lemma ExecutionExactly(db: Database, id: Id, configured: int, s: Stamp)
    requires Inv(db, {}) && IsParked(db, id) && s.Usable()
    ensures id in db.retries && db.retries[id].attempts >= 0 && db.txs[id].walletId in db.wallets
    ensures var tx, retry, r := db.txs[id], db.retries[id], Resolve(db, id, MaxAttempts(configured), s);
      && (!ReferenceSettled(db, tx) && MayWait(retry, configured, s.now) ==>
            r == Success(db.(retries := db.retries[id :=
              Retry(retry.attempts + 1, s.now + PauseAfter(retry.attempts + 1), retry.expiresAt, s.now)])))
      && (!ReferenceSettled(db, tx) && !MayWait(retry, configured, s.now) ==>
            && r.Success? && Told(db, r.value, tx, db.wallets[tx.walletId], s) && r.value.retries == db.retries - {id}
            && r.value.txs[id].status == Rejected && r.value.txs[id].failureCode == Some(ReferenceNotFound)
            && r.value.txs[id].resultBalance == Some(db.wallets[tx.walletId].balance.amountMinor))
      && (ReferenceSettled(db, tx) && r.Success? ==>
            && Told(db, r.value, tx, db.wallets[tx.walletId], s) && r.value.retries == db.retries - {id}
            && r.value.txs[id].status in {Status.Processed, Status.Rejected}
            && r.value.txs[id].failureCode != Some(ReferenceNotFound))
  {
    hide Inv, ReferenceSettled, ReferenceOf, Write, Justified, Outcome, Told, Landable, ResolutionFor, Backoff, PauseAfter;
    ParkedRow(db, id);
    SettledByRows(db, db.txs[id]);
    ResolveCases(db, id, MaxAttempts(configured), s);
    var tx, retry := db.txs[id], db.retries[id];
    var w := db.wallets[tx.walletId];
    PausesDouble(retry.attempts + 1);
    ResolutionIs(db, tx, retry, w, configured, s);
    match ResolutionFor(db, tx, retry, w, MaxAttempts(configured), s) {
      case Again =>
      case Final(l) =>
        if !l.Stopped? {
          Unlanded(db, tx, w, {});
          LandingTells(db, tx, w, l, s);
          SettlingRow(db, tx, w, l, s);
        }
    }
  }

  lemma ResolutionIs(db: Database, tx: WagerTx, retry: Retry, w: Wallet, configured: int, s: Stamp)
    ensures var r := ResolutionFor(db, tx, retry, w, MaxAttempts(configured), s);
      if Unsettled(ReferenceOf(db, tx)) then
        r == if MayWait(retry, configured, s.now) then Again else Final(Refused(ReferenceNotFound))
      else r.Final? && !r.landing.Parked? && !r.landing.Kept? && r.landing != Refused(ReferenceNotFound)
  {
    hide ReferenceOf;
  }

  lemma SettlingRow(db: Database, tx: WagerTx, w: Wallet, l: Landing, s: Stamp)
    requires !l.Parked? && !l.Kept? && !l.Stopped? && tx.id in db.txs
    ensures var d := Outcome(db, tx, w, l, s);
      && tx.id in d.txs && d.retries == db.retries - {tx.id} && d.txs[tx.id].status in {Status.Processed, Status.Rejected}
      && (l.Refused? ==> d.txs[tx.id].status == Rejected && d.txs[tx.id].failureCode == Some(l.code) &&
                         d.txs[tx.id].resultBalance == Some(w.balance.amountMinor))
      && (!l.Refused? ==> d.txs[tx.id].failureCode == tx.failureCode)
  {
    hide FinalOutbox;
  }

  /** What is not parked is not resolved: an unknown row is an error, any other is left alone. */
  lemma NothingToResolve(db: Database, id: Id, max: int, s: Stamp)
    requires !IsParked(db, id)
    ensures Resolve(db, id, max, s) == if id in db.txs then Success(db) else Failure(Domain(InvalidInput))
  {
  }

  /** A parked row that has lost its retry row is rejected at once, unless its wallet is missing. */
  lemma WithoutRetryRow(db: Database, id: Id, max: int, s: Stamp)
    requires IsParked(db, id) && id !in db.retries && db.txs[id].id == id && id != NIL && db.Keyed()
    requires db.txs[id].walletId != NIL && db.txs[id].playerId != NIL && db.IndexWithout(id) == db.reversalOf
    ensures var tx, r := db.txs[id], Resolve(db, id, max, s);
      if tx.walletId !in db.wallets then r == Failure(Domain(WalletNotFound))
      else
        && r.Success? && r.value.retries == db.retries && r.value.wallets == db.wallets && r.value.ledger == db.ledger
        && r.value.txs == db.txs[id := tx.(status := Rejected, failureCode := Some(ReferenceNotFound),
                                           resultBalance := Some(db.wallets[tx.walletId].balance.amountMinor), updatedAt := s.now)]
        && r.value.Events(id) == db.Events(id) +
             [Envelope(s.ids.event1, id, s.correlationId, s.now, StatusEvent(r.value.txs[id], db.wallets[tx.walletId].balance))]
  {
    hide Database.IndexWithout;
    assert db.retries - {id} == db.retries;
  }

  // ----- what opening a wallet does -----

  /** Opening is refused for a missing player, a negative amount, and a second wallet of one player in one currency. */
  lemma OpenedExactly(db: Database, o: OpenInput, s: Stamp)
    requires Inv(db, {}) && s.Usable() && o.walletId != NIL && o.txId != NIL && o.walletId != o.txId
    requires o.walletId !in db.txs && o.txId !in db.wallets && o.txId !in db.txs
    ensures var taken := exists id | id in db.wallets ::
        id == o.walletId || (db.wallets[id].playerId == o.playerId && db.wallets[id].balance.currency == o.initial.currency);
      match Open(db, o, s)
      case Failure(e) =>
        || (o.playerId == 0 && e == Domain(InvalidInput))
        || (o.playerId != 0 && o.initial.amountMinor < 0 && e == Domain(Code.InvalidAmount))
        || (o.playerId != 0 && o.initial.amountMinor >= 0 && taken && e == Domain(Conflict))
      case Success(d) =>
        && o.playerId != 0 && o.initial.amountMinor >= 0 && !taken && OpenedAs(db, d, o, s)
  {
    hide Inv, Opened, OpenedAs;
    OwnersTell(db, o.playerId, o.initial.currency);
    OpenKeeps(db, o, s);
    OpenUnder(db, o, s);
    if Open(db, o, s).Success? {
      FreshForOpening(db, o, s);
      OpensAs(db, o, s);
    }
  }

  /** The wallet at version 1 with the initial balance and, with money, one processed OPENING, one credit and two events. */
  ghost predicate OpenedAs(db: Database, d: Database, o: OpenInput, s: Stamp) {
    && d.wallets == db.wallets[o.walletId := Wallet(o.walletId, o.playerId, o.initial, 1, s.now, s.now)]
    && d.owners == db.owners[(o.playerId, o.initial.currency) := o.walletId]
    && d == db.(wallets := d.wallets, owners := d.owners, txs := d.txs, ledger := d.ledger, outbox := d.outbox)
    && (forall id: Id | id != o.walletId :: d.Ledger(id) == db.Ledger(id))
    && (forall id: Id | id != o.walletId && id != o.txId :: d.Events(id) == db.Events(id))
    && if o.initial.amountMinor == 0 then
         d.txs == db.txs && d.Ledger(o.walletId) == [] && d.Events(o.walletId) == [] && d.Events(o.txId) == []
       else
         var zero := Money(0, o.initial.currency);
         && d.txs == db.txs[o.txId := WagerTx(o.txId, Internal, "", "", "", None, o.walletId, o.playerId, "", "", Opening,
              o.initial, "", None, Status.Processed, None, Some(o.initial.amountMinor), s.now, s.now)]
         && d.Ledger(o.walletId) ==
              [LedgerEntry(s.ids.entry, o.walletId, o.txId, Credit, o.initial, zero, o.initial, s.now)]
         && d.Events(o.txId) == [Envelope(s.ids.event1, o.txId, s.correlationId, s.now,
              TransactionProcessed(o.txId, "", "", o.walletId, o.playerId, Opening, o.initial, Status.Processed, o.initial))]
         && d.Events(o.walletId) == [Envelope(s.ids.event2, o.walletId, s.correlationId, s.now,
              BalanceChanged(o.walletId, o.txId, Credit, o.initial, zero, o.initial, 1))]
  }

  lemma OwnersTell(db: Database, playerId: Id, currency: Currency)
    requires Inv(db, {})
    ensures (playerId, currency) in db.owners <==>
      exists id | id in db.wallets :: db.wallets[id].playerId == playerId && db.wallets[id].balance.currency == currency
  {
    hide Indexed, Shapes, Reversals, Chains, Booked, Announced;
    assert forall id | id in db.wallets :: WalletRow(db, db.wallets[id]);
    assert (playerId, currency) in db.owners ==> OwnerEntry(db, (playerId, currency), db.owners[(playerId, currency)]);
  }

  lemma FreshForOpening(db: Database, o: OpenInput, s: Stamp)
    requires Inv(db, {}) && Openable(db, o, s)
    ensures o.walletId !in db.ledger && o.walletId !in db.outbox && o.txId !in db.outbox
  {
    hide Indexed, Shapes, Reversals, Chains, Booked, Announced;
    Unused(db, o, s);
  }

  lemma OpensAs(db: Database, o: OpenInput, s: Stamp)
    requires o.walletId !in db.ledger && o.walletId !in db.outbox && o.txId !in db.outbox && o.walletId != o.txId
    requires o.initial.amountMinor >= 0
    ensures OpenedAs(db, Opened(db, o, s), o, s)
  {
    if o.initial.amountMinor > 0 {
      OpensPaid(db, o, s);
    }
  }

  lemma OpensPaid(db: Database, o: OpenInput, s: Stamp)
    requires o.walletId !in db.ledger && o.walletId !in db.outbox && o.txId !in db.outbox && o.walletId != o.txId
    requires o.initial.amountMinor > 0
    ensures OpenedAs(db, Opened(db, o, s), o, s)
  {
    var d := Opened(db, o, s);
    var t, e := OpeningRow(o, s.now), OpeningLine(o, s);
    var processed := NewProcessed(s.ids.event1, t, o.initial, s.correlationId, s.now);
    var changed := NewBalanceChanged(s.ids.event2, e, 1, s.correlationId, s.now);
    assert [] + [e] == [e] && [] + [processed] == [processed] && [] + [changed] == [changed];
    assert d.ledger[o.walletId] == [e] && d.outbox[o.txId] == [processed] && d.outbox[o.walletId] == [changed];
  }
}

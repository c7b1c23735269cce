/**
 Idempotency over runs: a request that is already durable is answered from its row and
 changes nothing, whatever happened since.
 */
module Replays {
  import opened Wrappers
  import opened Apperr
  import opened DomainMoney
  import opened DomainWagering
  import opened DomainWallet
  import opened DomainEvent
  import opened Postgres
  import opened AppProcess
  import opened AppResolve
  import opened AppOpen
  import opened Invariants
  import opened Settlement
  import opened Openings
  import opened Runs
  import opened History

  // ----- the stored hash is the hash of the stored row -----

  predicate RowHashed(t: WagerTx) {
    t.origin == External ==>
      t.payloadHash == Some(PayloadHash(t.providerId, t.externalId, t.playerId, t.walletId, t.roundId, t.gameId, t.kind,
                                        t.amount.amountMinor, t.amount.currency,
                                        if t.referenceExternalId == "" then None else Some(t.referenceExternalId)))
  }

  ghost predicate Hashed(db: Database) {
    forall id | id in db.txs :: RowHashed(db.txs[id])
  }

  /** The one row a successful request adds. */
  lemma SubmitAddsRow(db: Database, input: WagerInput, txId: Id, s: Stamp)
    requires Inv(db, {}) && txId !in db.wallets
    requires Process(db, input, txId, s).Success? && !Process(db, input, txId, s).value.result.replay
    ensures var pending, h, st := Prepare(input, txId, s.now).value, Process(db, input, txId, s).value, s.(ttl := Ttl(input));
      && Prepare(input, txId, s.now).Success? && Enterable(db, pending)
      && var e, w := db.Insert(pending), db.wallets[pending.walletId];
         var l := Landed(e, pending, w, st);
         && Landable(e, pending, {txId}) && Justified(e, pending, w, l, st) && Inv(e, {txId})
         && h.db == Outcome(e, pending, w, l, st)
         && h.result == WagerResult(FinalRow(pending, w, l, s.now), BalanceAfter(w, l), false)
  {
    hide Inv, Settle, Landed, Justified, Outcome;
    var pending := Prepare(input, txId, s.now).value;
    PreparedRow(input, txId, s.now);
    if db.ByIdempotencyKey(pending.providerId, pending.idempotencyKey).None? {
      EnterableHere(db, input, txId, s.now);
      SettleKeeps(db, pending, s.(ttl := Ttl(input)));
    }
  }

  lemma PreparedIsHashed(input: WagerInput, txId: Id, now: int)
    requires Prepare(input, txId, now).Success?
    ensures RowHashed(Prepare(input, txId, now).value)
  {
  }

  /** A request that is answered from a row leaves the tables as they are. */
  lemma ReplayChangesNothing(db: Database, input: WagerInput, txId: Id, s: Stamp)
    requires Inv(db, {}) && txId !in db.wallets
    requires Process(db, input, txId, s).Success? && Process(db, input, txId, s).value.result.replay
    ensures Process(db, input, txId, s).value.db == db
  {
    hide Inv, Settle;
    var pending := Prepare(input, txId, s.now).value;
    PreparedRow(input, txId, s.now);
    if db.ByIdempotencyKey(pending.providerId, pending.idempotencyKey).None? {
      EnterableHere(db, input, txId, s.now);
      SettleKeeps(db, pending, s.(ttl := Ttl(input)));
    }
  }

  lemma HashedStep(db: Database, step: Step)
    requires Inv(db, {}) && Admissible(db, step) && Hashed(db)
    ensures Hashed(Next(db, step))
  {
    hide Inv, Process, Resolve, Open, Evolves;
    var d := Next(db, step);
    StepForward(db, step);
    forall id | id in d.txs
      ensures RowHashed(d.txs[id])
    {
      if id in db.txs {
        RowsForwardAt(db, d, id);
      } else {
        NewRowHashed(db, step, id);
      }
    }
  }

  lemma NewRowHashed(db: Database, step: Step, id: Id)
    requires Inv(db, {}) && Admissible(db, step) && id in Next(db, step).txs && id !in db.txs
    ensures RowHashed(Next(db, step).txs[id])
  {
    hide Inv, Process, Resolve, Open, RowHashed, Openable, Opened;
    match step {
      case Submit(input, txId, s) => SubmittedRowHashed(db, input, txId, s, id);
      case Retried(txId, max, s) => ResolveAddsNoRow(db, txId, max, s);
      case OpenFor(o, s) =>
        OpenKeeps(db, o, s);
        OpenedRowHashed(db, o, s, id);
      case Lease(_, _, _) =>
    }
  }

  lemma SubmittedRowHashed(db: Database, input: WagerInput, txId: Id, s: Stamp, id: Id)
    requires Inv(db, {}) && txId !in db.wallets && Process(db, input, txId, s).Success?
    requires id in Process(db, input, txId, s).value.db.txs && id !in db.txs
    ensures RowHashed(Process(db, input, txId, s).value.db.txs[id])
  {
    hide Inv, Process, Justified, Landed, Landable, Enterable, Prepare, FinalRetries, FinalOutbox;
    if !Process(db, input, txId, s).value.result.replay {
      SubmitAddsRow(db, input, txId, s);
      PreparedIsHashed(input, txId, s.now);
    } else {
      ReplayChangesNothing(db, input, txId, s);
    }
  }

  lemma OpenedRowHashed(db: Database, o: OpenInput, s: Stamp, id: Id)
    requires id !in db.txs
    ensures id in Opened(db, o, s).txs ==> RowHashed(Opened(db, o, s).txs[id])
  {
    hide Opened;
    OpenedAddsRows(db, o, s);
  }

  lemma ResolveAddsNoRow(db: Database, txId: Id, max: int, s: Stamp)
    requires Inv(db, {})
    ensures match Resolve(db, txId, max, s)
      case Success(d) => d.txs.Keys == db.txs.Keys
      case Failure(_) => true
  {
    hide Inv, Write, ResolutionFor, Justified;
    if txId in db.txs && db.txs[txId].status == PendingReference {
      ResolveCases(db, txId, max, s);
    }
  }

  lemma {:induction false} HashedRun(db: Database, steps: seq<Step>)
    requires Inv(db, {}) && AdmissibleRun(db, steps) && Hashed(db)
    ensures Hashed(Run(db, steps))
    decreases |steps|
  {
    if steps != [] {
      hide Inv, Next, Admissible, Hashed;
      StepKeeps(db, steps[0]);
      HashedStep(db, steps[0]);
      HashedRun(Next(db, steps[0]), steps[1..]);
    }
  }

  // ----- what a duplicate is told -----

  /** Some committed row already carries the request's idempotency key or its external id. */
  predicate Durable(db: Database, input: WagerInput) {
    || db.ByIdempotencyKey(input.providerId, input.idempotencyKey).Some?
    || db.ByExternalId(input.providerId, input.externalId).Some?
  }

  /**
   A durable request changes nothing. It is answered from the row when key and payload are
   that row's, and is a conflict in every other case.
   */
  lemma DuplicateIsHarmless(db: Database, input: WagerInput, txId: Id, s: Stamp)
    requires Inv(db, {}) && Hashed(db) && Durable(db, input) && Prepare(input, txId, s.now).Success?
    ensures var held := db.ByIdempotencyKey(input.providerId, input.idempotencyKey);
      if held.Some? && held.value.payloadHash == Some(CanonicalHash(input))
      then Process(db, input, txId, s) == Success(Handled(db, WagerResult(held.value, StoredBalance(db, input, held.value), true)))
      else Process(db, input, txId, s) == Failure(Domain(Conflict))
  {
    hide Inv, Hashed, Indexed, Settle;
    PreparedRow(input, txId, s.now);
    InvKeys(db, {});
    KeyLookup(db, input.providerId, input.idempotencyKey);
    ExternalLookup(db, input.providerId, input.externalId);
    var held := db.ByIdempotencyKey(input.providerId, input.idempotencyKey);
    if held.Some? && held.value.payloadHash == Some(CanonicalHash(input)) {
      SameRow(db, held.value, input);
      HeldRow(db, held.value);
    } else if db.ByExternalId(input.providerId, input.externalId).Some? {
      KeyOf(db, db.ByExternalId(input.providerId, input.externalId).value);
    }
  }

  /** The balance a replay reports: the stored one in the request's currency, or the current one while parked. */
  function StoredBalance(db: Database, input: WagerInput, t: WagerTx): Money {
    if t.resultBalance.Some? then Money(t.resultBalance.value, input.money.currency)
    else if t.walletId in db.wallets then db.wallets[t.walletId].balance
    else input.money
  }

  /** The row that holds the hash is the one the external id finds. */
  lemma SameRow(db: Database, t: WagerTx, input: WagerInput)
    requires Indexed(db) && db.Keyed() && Hashed(db) && t in db.txs.Values && t.origin == External
    requires t.payloadHash == Some(CanonicalHash(input))
    ensures db.ByExternalId(input.providerId, input.externalId) == Some(t)
    ensures t.amount == input.money && t.walletId == input.walletId
  {
    assert t.id in db.txs && db.txs[t.id] == t;
    assert RowIndexed(db, t) && RowHashed(t);
  }

  lemma HeldRow(db: Database, t: WagerTx)
    requires Inv(db, {}) && t in db.txs.Values
    ensures t.walletId in db.wallets
    ensures t.resultBalance.Some? <==> t.status.IsTerminal()
  {
    assert t.id in db.txs && db.txs[t.id] == t;
    assert Shape(db, db.txs[t.id], {});
  }

  lemma KeyOf(db: Database, t: WagerTx)
    requires Indexed(db) && db.Keyed() && t in db.txs.Values && t.origin == External
    ensures db.ByIdempotencyKey(t.providerId, t.idempotencyKey) == Some(t)
  {
    assert t.id in db.txs && db.txs[t.id] == t;
    assert RowIndexed(db, t);
  }

  // ----- replay stability -----

  /** The same request again: same provider, key and payload, whatever its transport. */
  predicate Equivalent(t: WagerTx, input: WagerInput) {
    && t.origin == External
    && input.providerId == t.providerId && input.idempotencyKey == t.idempotencyKey
    && t.payloadHash == Some(CanonicalHash(input))
  }

  /**
   Once terminal, always the same answer: stored row, stored balance in minor units, in
   every later state, whatever moved since.
   */
  lemma ReplayIsStable(db: Database, later: Database, id: Id, input: WagerInput, txId: Id, s: Stamp)
    requires Evolves(db, later) && Inv(later, {}) && Hashed(later)
    requires id in db.txs && db.txs[id].status.IsTerminal() && Equivalent(db.txs[id], input)
    requires Prepare(input, txId, s.now).Success?
    ensures db.txs[id].resultBalance.Some?
    ensures Process(later, input, txId, s) ==
      Success(Handled(later, WagerResult(db.txs[id], Money(db.txs[id].resultBalance.value, input.money.currency), true)))
  {
    hide Inv, Evolves, Process, Hashed, Indexed;
    var t := db.txs[id];
    RowsForwardAt(db, later, id);
    InvKeys(later, {});
    assert t in later.txs.Values;
    KeyOf(later, t);
    HeldRow(later, t);
    DuplicateIsHarmless(later, input, txId, s);
  }

  lemma FirstAnswer(db: Database, input: WagerInput, txId: Id, s: Stamp)
    requires Inv(db, {}) && txId !in db.wallets
    requires Process(db, input, txId, s).Success? && !Process(db, input, txId, s).value.result.replay
    requires Process(db, input, txId, s).value.result.tx.status.IsTerminal()
    ensures var h := Process(db, input, txId, s).value;
      && txId in h.db.txs && h.db.txs[txId] == h.result.tx && Equivalent(h.result.tx, input)
      && h.result.tx.resultBalance == Some(h.result.balance.amountMinor)
      && input.walletId in db.wallets && h.result.balance.currency == db.wallets[input.walletId].balance.currency
  {
    hide Inv, Process, Landed, FinalRetries, FinalOutbox;
    SubmitAddsRow(db, input, txId, s);
    PreparedRow(input, txId, s.now);
  }

  // ----- duplicate erasure -----

  /** The run without the requests that were durable when they arrived. */
  function Erased(db: Database, steps: seq<Step>): seq<Step>
    decreases |steps|
  {
    if steps == [] then []
    else
      var rest := Erased(Next(db, steps[0]), steps[1..]);
      if steps[0].Submit? && Durable(db, steps[0].input) then rest else [steps[0]] + rest
  }

  /** Erasing duplicates changes nothing in the store, and leaves a run one could have had. */
  lemma {:induction false} ErasureKeepsStore(db: Database, steps: seq<Step>)
    requires Inv(db, {}) && Hashed(db) && AdmissibleRun(db, steps)
    ensures Run(db, Erased(db, steps)) == Run(db, steps)
    ensures AdmissibleRun(db, Erased(db, steps))
    decreases |steps|
  {
    hide Inv, Hashed, Admissible, Durable, Process, Resolve, Open;
    if steps != [] {
      var step, next := steps[0], Next(db, steps[0]);
      StepKeeps(db, step);
      HashedStep(db, step);
      ErasureKeepsStore(next, steps[1..]);
      if step.Submit? && Durable(db, step.input) {
        DurableStepIsIdle(db, step);
      } else {
        var rest := Erased(next, steps[1..]);
        assert ([step] + rest)[0] == step && ([step] + rest)[1..] == rest;
      }
    }
  }

  lemma DurableStepIsIdle(db: Database, step: Step)
    requires Inv(db, {}) && Hashed(db) && step.Submit? && Durable(db, step.input)
    ensures Next(db, step) == db
  {
    hide Inv, Hashed, Durable, Handle;
    if Prepare(step.input, step.txId, step.s.now).Success? {
      DuplicateIsHarmless(db, step.input, step.txId, step.s);
    }
  }

  lemma RowsLive(db: Database, d: Database)
    requires Evolves(db, d)
    ensures forall id | id in db.txs :: id in d.txs
    ensures Extends(db.byExternal, d.byExternal) && Extends(db.byKey, d.byKey)
  {
  }
}

/**
 Parked reversals: each resolver execution uses up one attempt or settles the row, and
 settling it late comes to the same as settling it on arrival.
 */
module Parking {
  import opened Wrappers
  import opened Apperr
  import opened DomainMoney
  import opened DomainWagering
  import opened DomainWallet
  import opened DomainEvent
  import opened Postgres
  import opened AppProcess
  import opened AppResolve
  import opened AppOpen
  import opened Invariants
  import opened Settlement
  import opened Openings
  import opened Runs
  import opened History
  import opened Replays

  // ----- one execution -----

  ghost predicate IsParked(db: Database, id: Id) {
    id in db.txs && db.txs[id].status == PendingReference
  }

  /** The reference is a BET to give back, and the wallet cannot hold the amount on top of its balance. */
  predicate CreditOverflows(db: Database, tx: WagerTx) {
    var ref := ReferenceOf(db, tx);
    && tx.walletId in db.wallets
    && ref.Some? && ref.value.status == Processed && Mismatch(tx, ref.value).None? && !db.Reversed(ref.value.id)
    && ref.value.kind == Bet
    && db.wallets[tx.walletId].balance.amountMinor + tx.amount.amountMinor > MAX_INT64
  }

  /** What one execution does to a parked row; it is an error exactly when the credit overflows. */
  lemma OneExecution(db: Database, id: Id, max: int, s: Stamp)
    requires Inv(db, {}) && IsParked(db, id) && s.Usable()
    ensures id in db.retries
    ensures Resolve(db, id, max, s).Failure? <==> CreditOverflows(db, db.txs[id])
    ensures match Resolve(db, id, max, s)
      case Failure(_) => true
      case Success(d) =>
        || (id in d.txs && d.txs[id].status.IsTerminal())
        || (d == db.(retries := db.retries[id := Rescheduled(db.retries[id], s.now)]) &&
            !Exhausted(db.retries[id], max, s.now))
  {
    hide Inv, Write, Justified, Indexed;
    ParkedRow(db, id);
    ResolveCases(db, id, max, s);
    var tx := db.txs[id];
    var w, retry := db.wallets[tx.walletId], db.retries[id];
    ParkedCredit(db, id);
    ResolutionCases(db, tx, retry, w, max, s);
  }

  /** A parked row's own fields never stop a movement; only an overflowing credit does. */
  lemma ResolutionCases(db: Database, tx: WagerTx, retry: Retry, w: Wallet, max: int, s: Stamp)
    requires tx.walletId in db.wallets && w == db.wallets[tx.walletId] && w.id == tx.walletId
    requires Owned(w, tx) && tx.IsReversal() && tx.amount.IsPositive() && s.Usable() && tx.id != NIL && w.id != NIL
    requires !w.balance.IsNegative()
    ensures match ResolutionFor(db, tx, retry, w, max, s)
      case Again => !Exhausted(retry, max, s.now) && !CreditOverflows(db, tx)
      case Final(l) => !l.Parked? && (l.Stopped? <==> CreditOverflows(db, tx))
  {
  }

  lemma ParkedCredit(db: Database, id: Id)
    requires Inv(db, {}) && IsParked(db, id)
    ensures var tx := db.txs[id];
      && tx.amount.IsPositive() && tx.id != NIL && tx.walletId != NIL && tx.walletId in db.wallets
      && !db.wallets[tx.walletId].balance.IsNegative()
  {
    hide Indexed, Reversals, Chains, Booked, Announced;
    assert Shape(db, db.txs[id], {});
    assert WalletRow(db, db.wallets[db.txs[id].walletId]);
  }

  // ----- the countdown -----

  predicate Executes(step: Step, id: Id) {
    step.Retried? && step.txId == id
  }

  function Executions(steps: seq<Step>, id: Id): nat {
    if steps == [] then 0 else (if Executes(steps[0], id) then 1 else 0) + Executions(steps[1..], id)
  }

  /** Every execution for this row is configured alike, and meets a credit that fits. */
  ghost predicate Unhindered(db: Database, steps: seq<Step>, id: Id, max: int)
    decreases |steps|
  {
    steps != [] ==>
      && (Executes(steps[0], id) && IsParked(db, id) ==> steps[0].max <= max && !CreditOverflows(db, db.txs[id]))
      && Unhindered(Next(db, steps[0]), steps[1..], id, max)
  }

  /** Steps that are not executions for this row leave it and its attempts alone. */
  lemma OthersDoNotCount(db: Database, step: Step, id: Id)
    requires Inv(db, {}) && Admissible(db, step) && IsParked(db, id) && !Executes(step, id)
    ensures id in db.retries
    ensures var d := Next(db, step);
      IsParked(d, id) && id in d.retries && d.retries[id].attempts == db.retries[id].attempts
  {
    hide Inv, Process, Resolve, Open, Opened, Justified, Landed, Landable, FinalOutbox, Enterable;
    ParkedRow(db, id);
    match step {
      case Submit(input, txId, s) =>
        if Process(db, input, txId, s).Success? {
          SubmitElsewhere(db, input, txId, s, id);
        }
      case Retried(other, max, s) => ResolveElsewhere(db, other, max, s, id);
      case OpenFor(o, s) =>
        OpenKeeps(db, o, s);
        if Open(db, o, s).Success? {
          OpenedKeepsRetries(db, o, s);
        }
      case Lease(_, _, _) =>
    }
  }

  lemma OpenedKeepsRetries(db: Database, o: OpenInput, s: Stamp)
    requires Openable(db, o, s)
    ensures Opened(db, o, s).retries == db.retries
    ensures forall id | id in db.txs :: id in Opened(db, o, s).txs && Opened(db, o, s).txs[id] == db.txs[id]
  {
    hide Opened;
    OpenedAddsRows(db, o, s);
  }

  lemma SubmitElsewhere(db: Database, input: WagerInput, txId: Id, s: Stamp, id: Id)
    requires Inv(db, {}) && txId !in db.wallets && Process(db, input, txId, s).Success?
    requires id in db.txs && id in db.retries
    ensures var d := Process(db, input, txId, s).value.db;
      id in d.txs && d.txs[id] == db.txs[id] && id in d.retries && d.retries[id] == db.retries[id]
  {
    hide Inv, Process, Justified, Landed, FinalOutbox, FinalRow, Prepare;
    if Process(db, input, txId, s).value.result.replay {
      ReplayChangesNothing(db, input, txId, s);
    } else {
      SubmitAddsRow(db, input, txId, s);
      PreparedRow(input, txId, s.now);
    }
  }

  lemma ResolveElsewhere(db: Database, other: Id, max: int, s: Stamp, id: Id)
    requires Inv(db, {}) && other != id && id in db.txs && id in db.retries
    ensures match Resolve(db, other, max, s)
      case Success(d) => id in d.txs && d.txs[id] == db.txs[id] && id in d.retries && d.retries[id] == db.retries[id]
      case Failure(_) => true
  {
    hide Inv, Write, ResolutionFor, Justified, FinalOutbox, FinalRow;
    if other in db.txs && db.txs[other].status == PendingReference {
      ResolveCases(db, other, max, s);
    }
  }

  /** attempts counts the executions that did not settle the row, and stays below the maximum. */
  lemma {:induction false} Countdown(db: Database, steps: seq<Step>, id: Id, max: int)
    requires Inv(db, {}) && AdmissibleRun(db, steps) && IsParked(db, id) && Unhindered(db, steps, id, max)
    ensures id in db.retries && id in Run(db, steps).txs
    ensures var d := Run(db, steps);
      || d.txs[id].status.IsTerminal()
      || (&& IsParked(d, id) && id in d.retries
          && d.retries[id].attempts == db.retries[id].attempts + Executions(steps, id)
          && (Executions(steps, id) > 0 ==> d.retries[id].attempts < max))
    decreases |steps|
  {
    hide Inv, Process, Resolve, Open, Evolves, CreditOverflows;
    ParkedRow(db, id);
    if steps != [] {
      var step, next := steps[0], Next(db, steps[0]);
      StepKeeps(db, step);
      if Executes(step, id) {
        OneExecution(db, id, step.max, step.s);
      } else {
        OthersDoNotCount(db, step, id);
      }
      if IsParked(next, id) {
        Countdown(next, steps[1..], id, max);
      } else {
        RunForward(next, steps[1..]);
        RowsForwardAt(next, Run(next, steps[1..]), id);
      }
    }
  }

  /**
   Termination: by its max-th execution a freshly parked reversal is terminal, whatever
   runs in between and whatever it refers to, itself and cycles included.
   */
  lemma ParkedSettles(db: Database, steps: seq<Step>, id: Id, max: int)
    requires Inv(db, {}) && AdmissibleRun(db, steps) && IsParked(db, id) && Unhindered(db, steps, id, max)
    requires id in db.retries && Executions(steps, id) >= max - db.retries[id].attempts && Executions(steps, id) > 0
    ensures id in Run(db, steps).txs && Run(db, steps).txs[id].status.IsTerminal()
    ensures id !in Run(db, steps).retries
  {
    hide Inv, Next, Admissible, Unhindered;
    Countdown(db, steps, id, max);
    RunKeeps(db, steps);
    RowStatus(Run(db, steps), id);
  }

  lemma RetryForwardAt(db: Database, d: Database, id: Id)
    requires Evolves(db, d) && id in db.retries
    ensures RetryForward(d, id, db.retries[id])
  {
  }

  // ----- the pauses -----

  /** The pauses after attempts 1 to n together. */
  function Pauses(n: nat): int {
    if n == 0 then 0 else Pauses(n - 1) + Backoff(n)
  }

  lemma {:induction false} PowersOfTwo(n: nat)
    ensures n <= 8 ==> Pauses(n) == Shifted(n + 1) - 2 * SECOND
    ensures n > 8 ==> Pauses(n) == Shifted(9) - 2 * SECOND + Shifted(8) * (n - 8)
  {
    if n > 0 {
      PowersOfTwo(n - 1);
    }
  }

  /** n scheduled retries wait 2^(min(n,8)+1) - 2 + 256 * max(0, n-8) seconds in total. */
  lemma TotalPause(n: nat)
    ensures Shifted(8) == 256 * SECOND
    ensures var capped := if n < 8 then n else 8;
      Pauses(n) == Shifted(capped + 1) - 2 * SECOND + 256 * SECOND * (n - capped)
  {
    assert Shifted(8) == 256 * SECOND by {
      assert Shifted(4) == 16 * SECOND;
    }
    PowersOfTwo(n);
  }

  /** A row rescheduled n times in a row, each time when it falls due, has waited that long. */
  function DueAfter(retry: Retry, n: nat): Retry {
    if n == 0 then retry else var r := DueAfter(retry, n - 1); Rescheduled(r, r.nextAttemptAt)
  }

  lemma {:induction false} DueTimes(retry: Retry, n: nat)
    requires retry.attempts == 0
    ensures var r := DueAfter(retry, n);
      r.attempts == n && r.nextAttemptAt == retry.nextAttemptAt + Pauses(n) && r.expiresAt == retry.expiresAt
  {
    if n > 0 {
      DueTimes(retry, n - 1);
    }
  }

  // ----- late is as good as on arrival -----

  /** The tables as if the parked request had never arrived. */
  function Unparked(db: Database, id: Id): Database
    requires id in db.txs
  {
    var t := db.txs[id];
    db.(txs := db.txs - {id}, byExternal := db.byExternal - {(t.providerId, t.externalId)},
        byKey := db.byKey - {(t.providerId, t.idempotencyKey)}, retries := db.retries - {id}, outbox := db.outbox - {id})
  }

  /** Taking a request out again undoes exactly what parking it did. */
  lemma UnparkUndoesParking(db: Database, input: WagerInput, id: Id, s: Stamp)
    requires Inv(db, {}) && id !in db.wallets
    requires Process(db, input, id, s).Success? && !Process(db, input, id, s).value.result.replay
    requires Process(db, input, id, s).value.result.tx.status == PendingReference
    ensures id in Process(db, input, id, s).value.db.txs && Unparked(Process(db, input, id, s).value.db, id) == db
  {
    hide Inv, Process, Justified, Landed, Prepare;
    SubmitAddsRow(db, input, id, s);
    PreparedRow(input, id, s.now);
    var pending, st := Prepare(input, id, s.now).value, s.(ttl := Ttl(input));
    var e, w := db.Insert(pending), db.wallets[pending.walletId];
    InvKeys(db, {});
    FreeKeys(db, pending);
    FreshId(db, id);
    ParkThenUnpark(db, pending, w, Landed(e, pending, w, st), st);
  }

  lemma FreshId(db: Database, id: Id)
    requires Identities(db) && id !in db.txs && id !in db.wallets
    ensures id !in db.retries && id !in db.outbox
  {
  }

  lemma ParkThenUnpark(db: Database, t: WagerTx, w: Wallet, l: Landing, s: Stamp)
    requires t.id !in db.txs && t.id !in db.retries && t.id !in db.outbox && t.origin == External
    requires (t.providerId, t.externalId) !in db.byExternal && (t.providerId, t.idempotencyKey) !in db.byKey
    requires FinalRow(t, w, l, s.now).status == PendingReference && t.status == Pending
    ensures Unparked(Outcome(db.Insert(t), t, w, l, s), t.id) == db
  {
    assert l.Parked?;
    ParkedColumns(db, t, w, s);
    hide Outcome, FinalRow;
    ColumnsUnpark(db, Outcome(db.Insert(t), t, w, Parked, s), t);
  }

  /** The columns a parking adds to. */
  ghost predicate ParkedInto(db: Database, d: Database, t: WagerTx) {
    && t.id in d.txs && d.txs[t.id].providerId == t.providerId
    && d.txs[t.id].externalId == t.externalId && d.txs[t.id].idempotencyKey == t.idempotencyKey
    && d.txs - {t.id} == db.txs - {t.id} && d.retries - {t.id} == db.retries - {t.id}
    && d.outbox - {t.id} == db.outbox - {t.id}
    && d.byExternal == db.byExternal[(t.providerId, t.externalId) := t.id]
    && d.byKey == db.byKey[(t.providerId, t.idempotencyKey) := t.id]
    && d == db.(txs := d.txs, retries := d.retries, outbox := d.outbox, byExternal := d.byExternal, byKey := d.byKey)
  }

  lemma ParkedColumns(db: Database, t: WagerTx, w: Wallet, s: Stamp)
    requires t.origin == External
    ensures ParkedInto(db, Outcome(db.Insert(t), t, w, Parked, s), t)
  {
    hide FinalEvent;
  }

  lemma ColumnsUnpark(db: Database, d: Database, t: WagerTx)
    requires ParkedInto(db, d, t) && t.id !in db.txs && t.id !in db.retries && t.id !in db.outbox
    requires (t.providerId, t.externalId) !in db.byExternal && (t.providerId, t.idempotencyKey) !in db.byKey
    ensures Unparked(d, t.id) == db
  {
    assert db.txs - {t.id} == db.txs && db.retries - {t.id} == db.retries && db.outbox - {t.id} == db.outbox;
    assert d.byExternal - {(t.providerId, t.externalId)} == db.byExternal;
    assert d.byKey - {(t.providerId, t.idempotencyKey)} == db.byKey;
  }

  /** The parked row with its arrival moved to now. */
  function Arriving(t: WagerTx, now: int): WagerTx {
    t.(status := Pending, createdAt := now, updatedAt := now)
  }

  lemma ParkedFields(db: Database, id: Id)
    requires Inv(db, {}) && IsParked(db, id)
    ensures var t := db.txs[id];
      t.id == id && t.origin == External && t.referenceId.None? && t.failureCode.None? && t.resultBalance.None?
  {
    hide Indexed, Reversals, Chains, Booked, Announced;
    assert Shape(db, db.txs[id], {});
  }

  /** The row a request would insert now is the parked one, arriving now. */
  lemma SameArrival(db: Database, id: Id, input: WagerInput, now: int)
    requires Inv(db, {}) && Hashed(db) && IsParked(db, id) && Equivalent(db.txs[id], input)
    requires Prepare(input, id, now).Success?
    ensures Prepare(input, id, now).value == Arriving(db.txs[id], now)
  {
    hide Inv;
    var t := db.txs[id];
    ParkedFields(db, id);
    assert RowHashed(t);
    var h := CanonicalHash(input);
    assert input.money == Money(h.amountMinor, h.currency) == t.amount;
    assert input.referenceExternalId == (match h.reference case None => "" case Some(e) => e) == t.referenceExternalId;
  }

  /** What insertion puts back. */
  ghost predicate Reentered(db: Database, e: Database, id: Id, now: int)
    requires id in db.txs
  {
    e == db.(txs := db.txs[id := Arriving(db.txs[id], now)], retries := db.retries - {id}, outbox := db.outbox - {id})
  }

  lemma Reenters(db: Database, id: Id, now: int)
    requires id in db.txs && db.txs[id].id == id && db.txs[id].origin == External && RowIndexed(db, db.txs[id])
    ensures Reentered(db, Unparked(db, id).Insert(Arriving(db.txs[id], now)), id, now)
  {
    var t := db.txs[id];
    var e := Unparked(db, id).Insert(Arriving(t, now));
    assert e.txs == db.txs[id := Arriving(t, now)];
    assert e.byExternal == db.byExternal;
    assert e.byKey == db.byKey;
  }

  /** On arrival and on retry the verdict is the same once the reference is settled. */
  lemma SameLanding(db: Database, e: Database, id: Id, retry: Retry, w: Wallet, max: int, s: Stamp)
    requires id in db.txs && db.txs[id].id == id && IsParked(db, id) && Reentered(db, e, id, s.now)
    requires Owned(w, db.txs[id]) && db.txs[id].IsReversal() && !Unsettled(ReferenceOf(db, db.txs[id]))
    ensures ResolutionFor(db, db.txs[id], retry, w, max, s) == Final(Landed(e, Arriving(db.txs[id], s.now), w, s))
  {
    var tx, p := db.txs[id], Arriving(db.txs[id], s.now);
    assert ReferenceOf(e, p) == ReferenceOf(db, tx);
    var ref := ReferenceOf(db, tx);
    assert JudgeReference(p, ref, AlreadyReversed(e, ref)) == JudgeReference(tx, ref, AlreadyReversed(db, ref));
  }

  /** The tables after settling late, from the tables after settling on arrival. */
  function Late(direct: Database, db: Database, id: Id): Database
    requires id in direct.txs && id in db.txs
  {
    direct.(txs := direct.txs[id := direct.txs[id].(createdAt := db.txs[id].createdAt)],
            outbox := direct.outbox[id := db.Events(id) + direct.Events(id)])
  }

  /** The two landings write the same columns, but for the arrival time and the pending event. */
  lemma SameOutcome(db: Database, e: Database, id: Id, w: Wallet, l: Landing, s: Stamp, s2: Stamp)
    requires id in db.txs && db.txs[id].id == id && Reentered(db, e, id, s.now) && w.id != id
    requires (l.Refused? || l.Moved?) && s2 == s.(ttl := s2.ttl)
    ensures var tx := db.txs[id];
      id in Outcome(e, Arriving(tx, s.now), w, l, s2).txs &&
      Outcome(db, tx, w, l, s) == Late(Outcome(e, Arriving(tx, s.now), w, l, s2), db, id)
  {
    var tx := db.txs[id];
    var a, b := Outcome(db, tx, w, l, s), Outcome(e, Arriving(tx, s.now), w, l, s2);
    SameEvents(db, e, id, w, l, s, s2);
    hide FinalOutbox;
    assert e.Ledger(w.id) == db.Ledger(w.id);
    assert b.txs[id] == a.txs[id].(createdAt := s.now);
    assert a.txs == Late(b, db, id).txs;
    assert a.retries == b.retries;
  }

  lemma SameEvents(db: Database, e: Database, id: Id, w: Wallet, l: Landing, s: Stamp, s2: Stamp)
    requires id in db.txs && db.txs[id].id == id && Reentered(db, e, id, s.now) && w.id != id
    requires (l.Refused? || l.Moved?) && s2 == s.(ttl := s2.ttl)
    ensures var a, b := Outcome(db, db.txs[id], w, l, s), Outcome(e, Arriving(db.txs[id], s.now), w, l, s2);
      a.outbox == b.outbox[id := db.Events(id) + b.Events(id)]
  {
    hide FinalRetries;
    var late, direct := FinalRow(db.txs[id], w, l, s.now), FinalRow(Arriving(db.txs[id], s.now), w, l, s.now);
    assert late.id == direct.id == id && FinalEvent(late, w, l, s) == FinalEvent(direct, w, l, s2);
    hide FinalEvent, FinalRow;
    var own := db.outbox[id := db.Events(id) + [FinalEvent(late, w, l, s)]];
    var arrived := e.outbox[id := [FinalEvent(late, w, l, s)]];
    assert e.outbox == db.outbox - {id} && e.Events(id) == [];
    assert own == arrived[id := db.Events(id) + arrived[id]];
    assert w.id in own <==> w.id in arrived;
    assert w.id in own ==> own[w.id] == arrived[w.id];
    var a, b := FinalOutbox(db, late, w, l, s), FinalOutbox(e, direct, w, l, s2);
    assert b[id] == arrived[id];
    assert a == b[id := db.Events(id) + b[id]];
  }

  /** The landing on the re-entered store is justified and writes its outcome. */
  lemma DirectOutcome(db: Database, e: Database, id: Id, w: Wallet, l: Landing, s: Stamp, s2: Stamp)
    requires Inv(db, {}) && IsParked(db, id) && Reentered(db, e, id, s.now) && w == db.wallets[db.txs[id].walletId]
    requires Justified(db, db.txs[id], w, l, s) && s2 == s.(ttl := s2.ttl)
    ensures var p := Arriving(db.txs[id], s.now);
      Write(e, p, w, l, s2) == Success(Outcome(e, p, w, l, s2)) &&
      Marked(p, w, l, s2.now) == Success(FinalRow(p, w, l, s2.now))
  {
    hide Inv, Outcome, Write, FinalRow;
    var tx, p := db.txs[id], Arriving(db.txs[id], s.now);
    ParkedRow(db, id);
    Unlanded(db, tx, w, {});
    InvParts(db);
    Unrecorded(db, tx, {});
    assert e.IndexWithout(id) == db.IndexWithout(id);
    assert !e.HasEntry(w.id, id) by {
      assert e.Ledger(w.id) == db.Ledger(w.id);
    }
    hide Identities, Reversals, Booked;
    JustifiedToo(db, e, id, w, l, s, s2);
    hide Justified;
    MarkedIs(e, p, w, l, s2, {id});
    hide Marked;
    WriteSucceeds(e, p, w, l, s2, {id});
  }

  lemma InvParts(db: Database)
    requires Inv(db, {})
    ensures Identities(db) && Reversals(db) && Booked(db)
  {
  }

  lemma JustifiedToo(db: Database, e: Database, id: Id, w: Wallet, l: Landing, s: Stamp, s2: Stamp)
    requires IsParked(db, id) && db.txs[id].id == id && Reentered(db, e, id, s.now)
    requires Justified(db, db.txs[id], w, l, s) && s2 == s.(ttl := s2.ttl)
    ensures var p := Arriving(db.txs[id], s.now); Landable(e, p, {id}) && Justified(e, p, w, l, s2)
  {
  }

  /** A request whose keys are free and whose wallet exists is settled. */
  lemma FreshRequest(db: Database, input: WagerInput, id: Id, s: Stamp)
    requires Prepare(input, id, s.now).Success?
    requires db.ByExternalId(input.providerId, input.externalId).None?
    requires db.ByIdempotencyKey(input.providerId, input.idempotencyKey).None?
    requires input.walletId in db.wallets && id !in db.txs
    ensures Prepare(input, id, s.now).value.walletId == input.walletId
    ensures Process(db, input, id, s) == Settle(db, Prepare(input, id, s.now).value, s.(ttl := Ttl(input)))
  {
    hide Settle;
    PreparedRow(input, id, s.now);
  }

  /**
   Out of order is as good as in order: once the reference is settled, retrying a parked
   request gives exactly what the same request gives on the tables without it: same verdict,
   same wallet, ledger, index and row but for the arrival time, same events after the
   pending one; and it fails exactly when that request fails, with the same error.
   */
  lemma LateEqualsDirect(db: Database, id: Id, input: WagerInput, max: int, s: Stamp)
    requires Inv(db, {}) && Hashed(db) && IsParked(db, id) && Equivalent(db.txs[id], input)
    requires Prepare(input, id, s.now).Success? && !Unsettled(ReferenceOf(db, db.txs[id]))
    ensures match Process(Unparked(db, id), input, id, s)
      case Success(h) => id in h.db.txs && Resolve(db, id, max, s) == Success(Late(h.db, db, id))
      case Failure(e) => Resolve(db, id, max, s) == Failure(e)
  {
    hide Inv, Hashed, Outcome, Write, FinalRow, Marked, Justified, Late, ResolutionFor, Landed, Process;
    var tx, p, u := db.txs[id], Arriving(db.txs[id], s.now), Unparked(db, id);
    var s2 := s.(ttl := Ttl(input));
    ParkedRow(db, id);
    SameArrival(db, id, input, s.now);
    PreparedRow(input, id, s.now);
    ParkedIndexed(db, id);
    Reenters(db, id, s.now);
    var e, w, retry := u.Insert(p), db.wallets[tx.walletId], db.retries[id];
    FreshRequest(u, input, id, s);
    SameLanding(db, e, id, retry, w, max, s);
    LandedIgnoresTtl(e, p, w, s, s2);
    ResolveCases(db, id, max, s);
    var l := Landed(e, p, w, s);
    if l.Stopped? {
      StoppedFails(e, p, w, l, s2);
    } else {
      ParkedLanding(db, tx, retry, w, max, s);
      DirectOutcome(db, e, id, w, l, s, s2);
      IdIsNoWallet(db, id);
      SameOutcome(db, e, id, w, l, s, s2);
    }
  }

  lemma ParkedIndexed(db: Database, id: Id)
    requires Inv(db, {}) && IsParked(db, id)
    ensures db.txs[id].origin == External && RowIndexed(db, db.txs[id])
  {
    hide Reversals, Chains, Booked, Announced;
    assert Shape(db, db.txs[id], {});
  }

  lemma IdIsNoWallet(db: Database, id: Id)
    requires Inv(db, {}) && IsParked(db, id)
    ensures db.txs[id].walletId in db.wallets && db.wallets[db.txs[id].walletId].id != id
  {
    hide Indexed, Shapes, Reversals, Chains, Booked, Announced;
  }

  lemma LandedIgnoresTtl(db: Database, tx: WagerTx, w: Wallet, s: Stamp, s2: Stamp)
    requires s2 == s.(ttl := s2.ttl)
    ensures Landed(db, tx, w, s2) == Landed(db, tx, w, s)
  {
  }

  /** With its reference settled, a parked reversal is refused or moves money, or stops. */
  lemma ParkedLanding(db: Database, tx: WagerTx, retry: Retry, w: Wallet, max: int, s: Stamp)
    requires !Unsettled(ReferenceOf(db, tx))
    ensures match ResolutionFor(db, tx, retry, w, max, s)
      case Again => false
      case Final(l) => l.Refused? || l.Moved? || l.Stopped?
  {
  }
}

/**
 The guarantees, for every state that any interleaving of requests, resolver executions,
 openings and leases commits from an empty database.
 */
module Guarantees {
  import opened Wrappers
  import opened Apperr
  import opened DomainMoney
  import opened DomainWagering
  import opened DomainWallet
  import opened DomainEvent
  import opened Postgres
  import opened AppProcess
  import opened AppResolve
  import opened Invariants
  import opened Settlement
  import opened Runs
  import opened History
  import opened Replays
  import opened Conservation
  import opened Commits
  import opened Parking
  import opened Outcomes
  import opened Queries
  import opened EventLog
  import opened ReferenceWorker
  import opened Locking
  import opened Interleavings
  import EntryIds
  import Answers
  import Attempts
  import Schedules

  /** Committed by some schedule from the empty database. */
  ghost predicate Reached(db: Database) {
    exists actions: seq<Action> :: EnabledRun(Start(EMPTY), actions) && Ran(Start(EMPTY), actions).db == db
  }

  /** Committed by the same schedule at some later point. */
  ghost predicate Later(db: Database, later: Database) {
    exists before: seq<Action>, after: seq<Action> :: TwoPoints(before, after, db, later)
  }

  ghost predicate TwoPoints(before: seq<Action>, after: seq<Action>, db: Database, later: Database) {
    && EnabledRun(Start(EMPTY), before) && Ran(Start(EMPTY), before).db == db
    && EnabledRun(Ran(Start(EMPTY), before), after) && Ran(Ran(Start(EMPTY), before), after).db == later
  }

  lemma ReachedFacts(db: Database)
    requires Reached(db)
    ensures Inv(db, {}) && Hashed(db) && Conserved(db)
  {
    hide Inv, EnabledRun, Ran, MachineInv, Evolves;
    var actions: seq<Action> :| EnabledRun(Start(EMPTY), actions) && Ran(Start(EMPTY), actions).db == db;
    EmptyIsFine();
    StartIsFine(EMPTY);
    RanIsFaithful(EMPTY, Start(EMPTY), actions);
    assert Conserved(EMPTY) && Hashed(EMPTY);
    hide Conserved, Hashed;
  }

  lemma LaterFacts(db: Database, later: Database)
    requires Later(db, later)
    ensures Reached(db) && Reached(later) && Evolves(db, later)
  {
    hide TwoPoints, Reached, Evolves;
    var before: seq<Action>, after: seq<Action> :| TwoPoints(before, after, db, later);
    PointsFacts(before, after, db, later);
  }

  lemma PointsFacts(before: seq<Action>, after: seq<Action>, db: Database, later: Database)
    requires TwoPoints(before, after, db, later)
    ensures Reached(db) && Reached(later) && Evolves(db, later)
  {
    hide Inv, EnabledRun, Ran, MachineInv, Evolves, Conserved, Hashed;
    EmptyIsFine();
    StartIsFine(EMPTY);
    RanKeeps(EMPTY, Start(EMPTY), before);
    RanIsFaithful(EMPTY, Ran(Start(EMPTY), before), after);
    RanConcat(Start(EMPTY), before, after);
    assert EnabledRun(Start(EMPTY), before + after);
  }

  /** Every serial run that is supplied with new UUIDs commits reached states. */
  lemma SuppliedRunsAreReached(steps: seq<Step>)
    requires Schedules.SuppliedRun(EMPTY, steps)
    ensures Reached(Run(EMPTY, steps))
  {
    hide Run, Schedules.SuppliedRun, EnabledRun, Ran, Inv;
    EmptyIsFine();
    var actions := Schedules.RunIsSchedule(Start(EMPTY), steps);
  }

  // ----- safety of every committed state -----

  /** A wallet holds exactly what its history is worth. */
  lemma BalanceIsWorth(db: Database, walletId: Id)
    requires Reached(db) && walletId in db.wallets
    ensures db.wallets[walletId].balance.amountMinor == Total(Worths(db, walletId)) >= 0
  {
    hide Reached, Inv, Hashed;
    ReachedFacts(db);
    assert ConservedAt(db, walletId);
    WalletHere(db, walletId);
  }

  /** At most one processed reversal per reference. */
  lemma OneReversal(db: Database, a: Id, b: Id, r: Id)
    requires Reached(db)
    requires forall id | id in {a, b} ::
      id in db.txs && db.txs[id].status == Processed && db.txs[id].IsReversal() && db.txs[id].referenceId == Some(r)
    ensures a == b
  {
    hide Reached, Inv, Hashed, Conserved;
    ReachedFacts(db);
    OneReversalPerReference(db, {}, a, b, r);
  }

  /** Reversal chains are short, and agree along the way. */
  lemma ShortChains(db: Database, id: Id)
    requires Reached(db) && id in db.txs && db.txs[id].status == Processed && db.txs[id].IsReversal()
    ensures db.txs[id].referenceId.Some? && db.txs[id].referenceId.value in db.txs
    ensures var t, ref := db.txs[id], db.txs[db.txs[id].referenceId.value];
      && ref.status == Processed && ref.amount == t.amount && ref.walletId == t.walletId && ref.playerId == t.playerId
      && ref.providerId == t.providerId && ref.roundId == t.roundId && ref.externalId == t.referenceExternalId
      && (if t.kind == Refund then ref.kind == Bet else ref.kind in {Bet, Win, Refund} && !db.Reversed(id))
      && (ref.kind == Refund ==>
            ref.referenceId.Some? && ref.referenceId.value in db.txs &&
            db.txs[ref.referenceId.value].kind == Bet && db.txs[ref.referenceId.value].amount == t.amount)
  {
    hide Reached, Inv, Hashed, Conserved;
    ReachedFacts(db);
    ChainShape(db, {}, id);
  }

  /** Lines run from zero to the balance without a gap, never below zero, and the version counts them. */
  lemma LedgerIsChain(db: Database, walletId: Id)
    requires Reached(db) && walletId in db.wallets
    ensures var ls, w := db.Ledger(walletId), db.wallets[walletId];
      && (ls != [] ==> ls[0].balanceBefore.amountMinor == 0 && ls[|ls| - 1].balanceAfter.amountMinor == w.balance.amountMinor)
      && (ls == [] ==> w.balance.amountMinor == 0)
      && (forall i | 0 <= i < |ls| ::
            ls[i].balanceAfter.amountMinor == ls[i].balanceBefore.amountMinor + ls[i].Net() &&
            ls[i].balanceAfter.amountMinor >= 0 && ls[i].amount.currency == w.balance.currency)
      && (forall i, j | 0 <= i < |ls| && j == i + 1 < |ls| ::
            ls[j].balanceBefore.amountMinor == ls[i].balanceAfter.amountMinor)
      && w.version == 1 + |ls| - (if OpenedByLine(db, ls) then 1 else 0)
      && (forall i | 0 <= i < |ls| ::
            ls[i].transactionId in db.txs && db.txs[ls[i].transactionId].status == Processed &&
            db.txs[ls[i].transactionId].resultBalance == Some(ls[i].balanceAfter.amountMinor))
  {
    hide Reached, Inv, Hashed, Conserved, OpenedByLine;
    ReachedFacts(db);
    LedgerShape(db, walletId);
  }

  /** Settled movers and ledger lines match one to one. */
  lemma MoversAreLines(db: Database, id: Id)
    requires Reached(db) && id in db.txs && db.txs[id].status == Processed && db.txs[id].kind != Loss
    ensures exists i | 0 <= i < |db.Ledger(db.txs[id].walletId)| ::
      var line := db.Ledger(db.txs[id].walletId)[i];
      && line.transactionId == id && line.amount == db.txs[id].amount
      && db.txs[id].resultBalance == Some(line.balanceAfter.amountMinor)
      && forall j | 0 <= j < |db.Ledger(db.txs[id].walletId)| && j != i ::
           db.Ledger(db.txs[id].walletId)[j].transactionId != id
  {
    hide Reached, Inv, Hashed, Conserved;
    ReachedFacts(db);
    MoverHasLine(db, id);
  }

  lemma MoverHasLine(db: Database, id: Id)
    requires Inv(db, {}) && id in db.txs && Moves(db.txs[id])
    ensures exists i | 0 <= i < |db.Ledger(db.txs[id].walletId)| ::
      var line := db.Ledger(db.txs[id].walletId)[i];
      && line.transactionId == id && line.amount == db.txs[id].amount
      && db.txs[id].resultBalance == Some(line.balanceAfter.amountMinor)
      && forall j | 0 <= j < |db.Ledger(db.txs[id].walletId)| && j != i ::
           db.Ledger(db.txs[id].walletId)[j].transactionId != id
  {
    ShapeOf(db, id);
    BookOf(db, db.txs[id].walletId);
    hide Identities, Indexed, Shapes, Reversals, Chains, Announced, ChainAt, OpensFirst, Published, Shape;
    var ls := db.Ledger(db.txs[id].walletId);
    assert db.HasEntry(db.txs[id].walletId, id);
    var i :| 0 <= i < |ls| && ls[i].transactionId == id;
    assert LineOfRow(db, db.txs[id].walletId, ls[i]);
  }

  /** The events alone rebuild the balance, in order and without a gap in the versions. */
  lemma EventsRebuildBalance(db: Database, walletId: Id)
    requires Reached(db) && walletId in db.wallets
    ensures TellsLedger(db, walletId) && Folded(db.Events(walletId)) == db.wallets[walletId].balance.amountMinor
  {
    hide Reached, Inv, Hashed, Conserved, TellsLedger;
    ReachedFacts(db);
    WalletEvents(db, walletId);
  }

  /** Every settled row has told its outcome once, last. */
  lemma RowsAreAnnounced(db: Database, id: Id)
    requires Reached(db) && id in db.txs
    ensures var t, es := db.txs[id], db.Events(id);
      match t.status
      case Processed =>
        t.resultBalance.Some? &&
        AnnouncedLast(es, ProcessedData(t, Money(t.resultBalance.value, t.amount.currency)))
      case Rejected => AnnouncedLast(es, RejectedData(t))
      case PendingReference => |es| == 1 && AnnouncedLast(es, PendingData(t))
      case _ => false
  {
    hide Reached, Inv, Hashed, Conserved, AnnouncedLast;
    ReachedFacts(db);
    TransactionEvents(db, id);
    RowStatus(db, id);
  }

  /** No two ledger lines share an id, in any ledger: the primary key never refuses one. */
  lemma LedgerIdsAreUnique(db: Database, a: Id, i: nat, b: Id, j: nat)
    requires Reached(db) && i < |db.Ledger(a)| && j < |db.Ledger(b)|
    ensures db.Ledger(a)[i].id != NIL
    ensures db.Ledger(a)[i].id == db.Ledger(b)[j].id <==> a == b && i == j
  {
    hide Reached;
    ReachedIsNamed(db);
  }

  lemma ReachedIsNamed(db: Database)
    requires Reached(db)
    ensures EntryIds.Named(db)
  {
    hide Inv, EnabledRun, Ran, MachineInv, EntryIds.Named;
    var actions: seq<Action> :| EnabledRun(Start(EMPTY), actions) && Ran(Start(EMPTY), actions).db == db;
    EmptyIsFine();
    StartIsFine(EMPTY);
    EmptyIsNamed();
    EntryIds.RanNames(EMPTY, Start(EMPTY), actions);
  }

  lemma EmptyIsNamed()
    ensures EntryIds.NamesApart(Start(EMPTY))
  {
  }

  /** Every call with a decodable cursor answers with a page. */
  lemma LedgerIsListed(db: Database, walletId: Id, cursor: CursorText, limit: int)
    requires Reached(db) && walletId in db.wallets
    ensures DistinctIds(db.Ledger(walletId)) && AllReadable(db.Ledger(walletId))
    ensures Listed(db, walletId, cursor, limit).Some? <==> !cursor.Garbled?
  {
    hide Reached, Inv, Hashed, Conserved, AllReadable, Readable, Take, EntryIds.Named;
    ReachedFacts(db);
    ReachedIsNamed(db);
    EntryIds.NamedIsReadable(db, walletId);
    PageReadable(db, walletId, CursorOf(cursor), Clamp(limit) + 1);
  }

  /**
   The pages of a committed ledger: calling from the start with the cursor of the page before
   ends after the least number of calls and yields exactly the sorted lines.
   */
  lemma PagesOfLedger(db: Database, walletId: Id, limit: int, fuel: nat)
    requires Reached(db) && walletId in db.wallets && fuel >= |db.Ledger(walletId)|
    ensures var f := Follow(db, walletId, Absent, limit, fuel);
      && f.entries == Sort(db.Ledger(walletId)) && Sorted(f.entries)
      && multiset(f.entries) == multiset(db.Ledger(walletId))
      && Spread(|db.Ledger(walletId)|, f.pages, Clamp(limit))
  {
    hide Reached, Listed, Follow, Spread, Sort, Sorted, DistinctIds, AllReadable;
    LedgerIsListed(db, walletId, Absent, limit);
    PagesAreTheLedger(db, walletId, limit, fuel);
  }

  /** Reconciliation finds no difference and never fails. */
  lemma Reconciles(db: Database, walletId: Id)
    requires Reached(db) && walletId in db.wallets
    ensures SumByWallet(db, walletId) == Success((db.wallets[walletId].balance.amountMinor, |db.Ledger(walletId)|))
  {
    hide Reached, Inv, Hashed, Conserved;
    ReachedFacts(db);
    ReconcilesToZero(db, walletId);
  }

  /** The versions published are exactly those after the wallet's first and up to its current one. */
  lemma VersionsAreConsecutive(db: Database, walletId: Id, v: int)
    requires Reached(db) && walletId in db.wallets
    ensures var es, w := db.Events(walletId), db.wallets[walletId];
      w.version - |es| < v <= w.version <==>
        exists i | 0 <= i < |es| :: es[i].data.BalanceChanged? && es[i].data.walletVersion == v
  {
    hide Reached, Inv, Hashed, Conserved, OpenedByLine;
    ReachedFacts(db);
    WalletEvents(db, walletId);
    var es, w := db.Events(walletId), db.wallets[walletId];
    if w.version - |es| < v <= w.version {
      var i := v - w.version + |es| - 1;
      assert es[i].data.walletVersion == v;
    }
  }

  /** A wallet has at most one opening row: its unique index never has to refuse one. */
  lemma OneOpeningPerWallet(db: Database, a: Id, b: Id)
    requires Reached(db) && a in db.txs && b in db.txs
    requires db.txs[a].kind == Opening && db.txs[b].kind == Opening && db.txs[a].walletId == db.txs[b].walletId
    ensures a == b
  {
    hide Reached, Inv, Hashed, Conserved;
    ReachedFacts(db);
    OpeningIsFirst(db, a);
    OpeningIsFirst(db, b);
  }

  // ----- what later states keep -----

  /** Terminal rows and parked rows' deadlines are final; rows are parked exactly while they are retried. */
  lemma StatusesAreFinal(db: Database, later: Database, id: Id)
    requires Later(db, later) && id in db.txs
    ensures id in later.txs
    ensures db.txs[id].status in {PendingReference, Status.Processed, Status.Rejected}
    ensures db.txs[id].status == PendingReference <==> id in db.retries
    ensures db.txs[id].status != PendingReference || later.txs[id].status == PendingReference ==>
      later.txs[id] == db.txs[id]
    ensures id in db.retries && id in later.retries ==>
      db.retries[id].attempts <= later.retries[id].attempts && db.retries[id].expiresAt == later.retries[id].expiresAt
  {
    hide Later, Reached, Inv, Hashed, Conserved, Evolves;
    LaterFacts(db, later);
    ReachedFacts(db);
    ReachedFacts(later);
    RowStatus(db, id);
    RowsForwardAt(db, later, id);
    RowStatus(later, id);
    if id in db.retries {
      RetryForwardAt(db, later, id);
    }
  }

  /** A reversal is for ever, even when it is rolled back itself: its reference is never free again. */
  lemma ReversedForEver(db: Database, later: Database, r: Id)
    requires Later(db, later) && db.Reversed(r)
    ensures later.Reversed(r) && later.reversalOf[r] == db.reversalOf[r]
  {
    hide Later, Reached, RowsForward, WalletsForward, RetriesForward, LogsForward;
    LaterFacts(db, later);
  }

  /** Once parked, the pending event stays the first; settling adds exactly one more. */
  lemma PendingEventStays(db: Database, later: Database, id: Id)
    requires Later(db, later) && IsParked(db, id)
    ensures id in later.txs && 1 <= |later.Events(id)| && 1 == |db.Events(id)|
    ensures later.Events(id)[0] == db.Events(id)[0] && later.Events(id)[0].data == PendingData(db.txs[id])
    ensures |later.Events(id)| == (if IsParked(later, id) then 1 else 2)
  {
    hide Later, Reached, Inv, Hashed, Conserved, Evolves, ProcessedData, RejectedData;
    LaterFacts(db, later);
    ReachedFacts(db);
    ReachedFacts(later);
    RowsForwardAt(db, later, id);
    TransactionEvents(db, id);
    TransactionEvents(later, id);
    LogsOnlyGrow(db, later, id);
    RowStatus(later, id);
    TwoAtMost(later.Events(id), later.txs[id]);
  }

  /** Ledger lines and events are never changed, reordered or removed. */
  lemma LogsOnlyGrow(db: Database, later: Database, id: Id)
    requires Later(db, later)
    ensures db.Ledger(id) <= later.Ledger(id) && db.Events(id) <= later.Events(id)
  {
    hide Later, Reached, RowsForward, WalletsForward, RetriesForward, IndexesForward;
    LaterFacts(db, later);
  }

  /** A settled request is answered alike for ever, on either transport, whatever moved since. */
  lemma AnsweredForEver(db: Database, later: Database, id: Id, input: WagerInput, txId: Id, s: Stamp)
    requires Later(db, later) && Prepare(input, txId, s.now).Success?
    requires id in db.txs && db.txs[id].status != PendingReference && Equivalent(db.txs[id], input)
    ensures db.txs[id].resultBalance.Some?
    ensures Process(later, input, txId, s) ==
      Success(Handled(later, WagerResult(db.txs[id], Money(db.txs[id].resultBalance.value, input.money.currency), true)))
  {
    hide Later, Reached, Inv, Hashed, Conserved, Evolves, Process, Prepare;
    LaterFacts(db, later);
    ReachedFacts(db);
    ReachedFacts(later);
    RowStatus(db, id);
    ReplayIsStable(db, later, id, input, txId, s);
  }

  /**
   The first answer, repeated: a request that settles is answered the same way ever after,
   but for the replay flag. The balance is the same money exactly when the request's
   currency is the wallet's; otherwise only the minor units are.
   */
  lemma FirstAnswerRepeats(db: Database, input: WagerInput, txId: Id, s: Stamp, later: Database,
                           again: WagerInput, txId2: Id, s2: Stamp)
    requires Reached(db) && Reached(later) && Admissible(db, Submit(input, txId, s))
    requires Process(db, input, txId, s).Success? && !Process(db, input, txId, s).value.result.replay
    requires Process(db, input, txId, s).value.result.tx.status.IsTerminal()
    requires Evolves(Process(db, input, txId, s).value.db, later)
    requires CanonicalHash(again) == CanonicalHash(input) && again.idempotencyKey == input.idempotencyKey
    requires Prepare(again, txId2, s2.now).Success?
    ensures input.walletId in db.wallets
    ensures var h := Process(db, input, txId, s).value;
      && Process(later, again, txId2, s2) ==
           Success(Handled(later, WagerResult(h.result.tx, Money(h.result.balance.amountMinor, input.money.currency), true)))
      && (Money(h.result.balance.amountMinor, input.money.currency) == h.result.balance <==>
            input.money.currency == db.wallets[input.walletId].balance.currency)
  {
    hide Reached, Inv, Hashed, Conserved, Process, Evolves;
    ReachedFacts(db);
    ReachedFacts(later);
    var h := Process(db, input, txId, s).value;
    FirstAnswer(db, input, txId, s);
    HashIdentifiesPayload(again, input);
    ReplayIsStable(h.db, later, txId, again, txId2, s2);
  }

  /** A key or external id that is known once is known for ever. */
  lemma DurableForEver(db: Database, later: Database, input: WagerInput)
    requires Later(db, later) && Durable(db, input)
    ensures Durable(later, input)
  {
    hide Later, Reached, Inv, Hashed, Conserved, Evolves;
    LaterFacts(db, later);
    ReachedFacts(db);
    InvKeys(db, {});
    RowsLive(db, later);
  }

  /** A durable request never writes, and is a conflict unless key and payload are one row's. */
  lemma DuplicatesNeverWrite(db: Database, input: WagerInput, txId: Id, s: Stamp)
    requires Reached(db) && Durable(db, input) && Prepare(input, txId, s.now).Success?
    ensures var held := db.ByIdempotencyKey(input.providerId, input.idempotencyKey);
      if held.Some? && held.value.payloadHash == Some(CanonicalHash(input))
      then Process(db, input, txId, s) == Success(Handled(db, WagerResult(held.value, StoredBalance(db, input, held.value), true)))
      else Process(db, input, txId, s) == Failure(Domain(Conflict))
  {
    hide Reached, Inv, Hashed, Conserved, Process, Durable, Prepare;
    ReachedFacts(db);
    DuplicateIsHarmless(db, input, txId, s);
  }

  // ----- what the next request or execution does -----

  /** A new request has the outcome the committed rows decide. */
  lemma NewRequest(db: Database, input: WagerInput, txId: Id, s: Stamp)
    requires Reached(db) && s.Usable() && Prepare(input, txId, s.now).Success?
    requires txId !in db.txs && txId !in db.wallets && input.walletId in db.wallets && !Durable(db, input)
    ensures var w := db.wallets[input.walletId];
      Shown(db, w, input, txId, s, RequestFate(db, input, w), Process(db, input, txId, s))
  {
    hide Reached, Inv, Hashed, Conserved, Shown, RequestFate, Process, Durable, Prepare;
    ReachedFacts(db);
    OutcomeOfNewRequest(db, input, txId, s);
  }

  /**
   Every refusal of a prepared request, told by the committed rows: a conflict, no wallet, or
   an overflow. Any other request succeeds.
   */
  lemma Refusals(db: Database, input: WagerInput, txId: Id, s: Stamp)
    requires Reached(db) && s.Usable() && Prepare(input, txId, s.now).Success? && txId !in db.wallets
    ensures var r, known := Process(db, input, txId, s), Answers.KeyKnown(db, input) || Answers.ExternalKnown(db, input);
      && (r == Failure(Domain(Conflict)) <==>
            || Answers.ExternalOfAnother(db, input) || Answers.KeyOfAnother(db, input)
            || (!known && input.walletId in db.wallets && txId in db.txs))
      && (r == Failure(Domain(WalletNotFound)) <==> !known && input.walletId !in db.wallets)
      && (r == Failure(Domain(Code.InvalidAmount)) <==>
            Answers.New(db, input, txId) && RequestFate(db, input, db.wallets[input.walletId]).Errs?)
      && (r.Failure? ==> r.error in {Domain(Conflict), Domain(WalletNotFound), Domain(Code.InvalidAmount)})
  {
    hide Reached, Inv, Hashed, Conserved, Process, Prepare, RequestFate, Answers.New, Answers.KeyKnown, Answers.ExternalKnown,
         Answers.KeyOfAnother, Answers.ExternalOfAnother;
    ReachedFacts(db);
    Answers.RefusedExactly(db, input, txId, s);
  }

  /**
   What can never be reversed: an OPENING is never found, a LOSS is stopped by the field or
   amount check, a ROLLBACK is never reversed, and a REFUND reverses nothing but a BET.
   */
  lemma NeverReversed(db: Database, input: WagerInput, w: Wallet)
    requires Reached(db) && input.money.IsPositive() && ReferredTo(db, input).Some?
    requires input.kind == Refund || input.kind == Rollback
    ensures ReferredTo(db, input).value.kind != Opening
    ensures var ref := ReferredTo(db, input).value;
      ref.status == Processed ==>
        && (ref.kind == Loss ==> ReversalFate(db, input, w) in {Refuses(ReferenceMismatch), Refuses(ReferenceAmountMismatch)})
        && (ReversalFate(db, input, w) == Refuses(ReferenceNotReversible) ==>
              ref.kind == Rollback || (input.kind == Refund && ref.kind in {Win, Refund}))
        && (ref.kind == Rollback || (input.kind == Refund && ref.kind != Bet) ==> ReversalFate(db, input, w).Refuses?)
  {
    hide Reached, Inv, Hashed, Conserved, HasReversal;
    ReachedFacts(db);
    InvKeys(db, {});
    ReferredRow(db, input);
    KindOfRow(db, ReferredTo(db, input).value.id);
    hide Indexed;
  }

  /** An execution settles a parked row or uses one of its attempts, and errs exactly on an overflowing credit. */
  lemma NextExecution(db: Database, id: Id, max: int, s: Stamp)
    requires Reached(db) && IsParked(db, id) && s.Usable()
    ensures id in db.retries
    ensures Resolve(db, id, max, s).Failure? <==> CreditOverflows(db, db.txs[id])
    ensures match Resolve(db, id, max, s)
      case Failure(_) => true
      case Success(d) =>
        || (id in d.txs && d.txs[id].status.IsTerminal())
        || (d == db.(retries := db.retries[id := Rescheduled(db.retries[id], s.now)]) &&
            s.now <= db.retries[id].expiresAt && db.retries[id].attempts + 1 < max)
  {
    hide Reached, Inv, Hashed, Conserved, Resolve, CreditOverflows;
    ReachedFacts(db);
    OneExecution(db, id, max, s);
  }

  /**
   While the reference is missing or has not settled, an execution tries again if and only if
   attempts and deadline last, and otherwise gives up; once it is settled, none leaves the row
   waiting.
   */
  lemma WaitsExactly(db: Database, id: Id, configured: int, s: Stamp)
    requires Reached(db) && IsParked(db, id) && s.Usable()
    ensures id in db.retries && 0 <= db.retries[id].attempts
    ensures var retry, r := db.retries[id], Resolve(db, id, MaxAttempts(configured), s);
      && (r.Success? && IsParked(r.value, id) <==>
            !Answers.ReferenceSettled(db, db.txs[id]) && s.now <= retry.expiresAt &&
            retry.attempts + 1 < (if configured <= 0 then 12 else configured))
      && (r.Success? && IsParked(r.value, id) ==>
            r.value == db.(retries := db.retries[id :=
              Retry(retry.attempts + 1, s.now + Answers.PauseAfter(retry.attempts + 1), retry.expiresAt, s.now)]))
      && (r.Success? && !IsParked(r.value, id) ==>
            && id in r.value.txs && id !in r.value.retries && r.value.txs[id].status in {Status.Processed, Status.Rejected}
            && (!Answers.ReferenceSettled(db, db.txs[id]) <==> r.value.txs[id].failureCode == Some(ReferenceNotFound)))
  {
    hide Reached, Inv, Hashed, Conserved, Resolve, Answers.ReferenceSettled, Answers.PauseAfter;
    ReachedFacts(db);
    Answers.ExecutionExactly(db, id, configured, s);
    ParkedRow(db, id);
  }

  /**
   In no schedule is a reversal given up early: where a row that waited ends as
   REFERENCE_NOT_FOUND, one of its executions committed after the deadline, or as its last.
   */
  lemma NeverGivenUpEarly(before: seq<Action>, after: seq<Action>, id: Id)
    requires EnabledRun(Start(EMPTY), before) && EnabledRun(Ran(Start(EMPTY), before), after)
    requires var st := Ran(Start(EMPTY), before); IsParked(st.db, id) && id in st.db.retries
    requires Attempts.GivenUp(Ran(Ran(Start(EMPTY), before), after).db, id)
    ensures var st, log := Ran(Start(EMPTY), before), Ran(Ran(Start(EMPTY), before), after).log;
      exists i: nat :: Attempts.LastTry(st, log, id, i)
  {
    hide Inv, MachineInv, EnabledRun, Ran, Attempts.LastTry;
    EmptyIsFine();
    StartIsFine(EMPTY);
    RanKeeps(EMPTY, Start(EMPTY), before);
    Attempts.GivenUpLate(EMPTY, Ran(Start(EMPTY), before), after, id);
  }

  /**
   An overflow passes. A credit that once did not fit is tried again by every later execution:
   it errs while the balance then leaves no room, and settles the row otherwise.
   */
  lemma OverflowPasses(db: Database, later: Database, id: Id, max: int, s: Stamp)
    requires Later(db, later) && IsParked(db, id) && CreditOverflows(db, db.txs[id]) && IsParked(later, id) && s.Usable()
    ensures db.txs[id].walletId in later.wallets && ReferenceOf(db, db.txs[id]).Some?
    ensures var tx, r := db.txs[id], Resolve(later, id, max, s);
      && (r.Failure? <==>
            later.wallets[tx.walletId].balance.amountMinor + tx.amount.amountMinor > MAX_INT64 &&
            !later.Reversed(ReferenceOf(db, tx).value.id))
      && (r.Success? ==> id in r.value.txs && r.value.txs[id].status.IsTerminal())
  {
    hide Later, Reached, Inv, Hashed, Conserved, Evolves, Resolve;
    LaterFacts(db, later);
    ReachedFacts(db);
    ReachedFacts(later);
    RowsForwardAt(db, later, id);
    ParkedRow(later, id);
    ReferenceForward(db, later, db.txs[id]);
    NextExecution(later, id, max, s);
    SettledReferenceSettles(later, id, max, s);
  }

  /** A settled reference is found again, unchanged. */
  lemma ReferenceForward(db: Database, later: Database, tx: WagerTx)
    requires Inv(db, {}) && Evolves(db, later)
    requires ReferenceOf(db, tx).Some? && ReferenceOf(db, tx).value.status.IsTerminal()
    ensures ReferenceOf(later, tx) == ReferenceOf(db, tx)
  {
    hide Inv, WalletsForward, RetriesForward, LogsForward;
    InvKeys(db, {});
    var k := (tx.providerId, tx.referenceExternalId);
    assert k in db.byExternal && k in later.byExternal && later.byExternal[k] == db.byExternal[k];
    assert RowForward(db.txs[db.byExternal[k]], later.txs[db.byExternal[k]]);
  }

  /** With its reference settled no execution is put off. */
  lemma SettledReferenceSettles(db: Database, id: Id, max: int, s: Stamp)
    requires Inv(db, {}) && IsParked(db, id) && !Unsettled(ReferenceOf(db, db.txs[id]))
    ensures match Resolve(db, id, max, s)
      case Failure(_) => true
      case Success(d) => id in d.txs && d.txs[id].status.IsTerminal()
  {
    hide Inv, Justified, Write, Landable, ReferenceOf, ResolutionFor, FinalOutbox, FinalRetries;
    ResolveCases(db, id, max, s);
    ParkedLanding(db, db.txs[id], db.retries[id], db.wallets[db.txs[id].walletId], max, s);
  }

  /** Past its deadline, which never moves, a row is settled by its next execution. */
  lemma DeadlineSettles(db: Database, later: Database, id: Id, max: int, s: Stamp)
    requires Later(db, later) && IsParked(db, id) && IsParked(later, id) && id in db.retries && s.Usable()
    requires s.now > db.retries[id].expiresAt && !CreditOverflows(later, later.txs[id])
    ensures match Resolve(later, id, max, s)
      case Success(d) => id in d.txs && d.txs[id].status.IsTerminal()
      case Failure(_) => false
  {
    hide Later, Reached, Inv, Hashed, Conserved, Evolves, CreditOverflows, Resolve;
    LaterFacts(db, later);
    ReachedFacts(later);
    RetryForwardAt(db, later, id);
    OneExecution(later, id, max, s);
  }

  /** Resolving a parked request late equals processing it now on the tables without it. */
  lemma LateIsDirect(db: Database, id: Id, input: WagerInput, max: int, s: Stamp)
    requires Reached(db) && IsParked(db, id) && Equivalent(db.txs[id], input)
    requires Prepare(input, id, s.now).Success? && !Unsettled(ReferenceOf(db, db.txs[id]))
    ensures match Process(Unparked(db, id), input, id, s)
      case Success(h) => id in h.db.txs && Resolve(db, id, max, s) == Success(Late(h.db, db, id))
      case Failure(e) => Resolve(db, id, max, s) == Failure(e)
  {
    hide Reached, Inv, Hashed, Conserved, Resolve, Process, Unparked, Late, Prepare, ReferenceOf;
    ReachedFacts(db);
    LateEqualsDirect(db, id, input, max, s);
  }

  /** From any reached state on, a parked row settles by its last attempt. */
  lemma ParkedRowSettles(db: Database, steps: seq<Step>, id: Id, max: int)
    requires Reached(db) && AdmissibleRun(db, steps) && IsParked(db, id) && Unhindered(db, steps, id, max)
    requires id in db.retries && Executions(steps, id) >= max - db.retries[id].attempts && Executions(steps, id) > 0
    ensures id in Run(db, steps).txs && Run(db, steps).txs[id].status.IsTerminal() && id !in Run(db, steps).retries
  {
    hide Reached, Inv, Hashed, Conserved, AdmissibleRun, Unhindered, Run;
    ReachedFacts(db);
    ParkedSettles(db, steps, id, max);
  }

  /** Parking adds the row, its keys, its retry row and its event, and nothing else. */
  lemma ParkingOnlyAdds(db: Database, input: WagerInput, id: Id, s: Stamp)
    requires Reached(db) && id !in db.wallets
    requires Process(db, input, id, s).Success? && !Process(db, input, id, s).value.result.replay
    requires Process(db, input, id, s).value.result.tx.status == PendingReference
    ensures id in Process(db, input, id, s).value.db.txs && Unparked(Process(db, input, id, s).value.db, id) == db
  {
    hide Reached, Inv, Hashed, Conserved, Process, Unparked;
    ReachedFacts(db);
    UnparkUndoesParking(db, input, id, s);
  }

  /**
   Between two leases of one row, either an execution of it committed, or the first lease
   ran out. What that means for executions with a beginning and an end is proved in Leases.
   */
  lemma LeasesAreSeparated(db: Database, first: Step, between: seq<Step>, second: Step, id: Id)
    requires Reached(db) && AdmissibleRun(db, [first] + between + [second]) && IsParked(db, id)
    requires first.Lease? && second.Lease? && id in first.ids && id in second.ids
    requires forall i | 0 <= i < |between| :: LeavesAlone(between[i], id)
    ensures first.lockUntil <= second.now
  {
    hide Reached, Inv, Hashed, Conserved, AdmissibleRun, Run;
    ReachedFacts(db);
    var leased := Next(db, first);
    RunConcat(db, [first] + between, [second]);
    RunConcat(db, [first], between);
    OneStep(db, first);
    StepKeeps(db, first);
    ParkedRow(db, id);
    RetryUntouchedBy(leased, between, id);
    OneStep(Run(leased, between), second);
  }
}

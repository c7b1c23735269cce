/**
 Runs: any number of requests, resolver executions, leases and wallet openings, each taking
 effect at its commit. Every run keeps the invariant, and never takes anything back.
 */
module Runs {
  import opened Wrappers
  import opened Apperr
  import opened DomainMoney
  import opened DomainWagering
  import opened DomainWallet
  import opened DomainEvent
  import opened Postgres
  import opened AppProcess
  import opened AppResolve
  import opened AppOpen
  import opened Invariants
  import opened Settlement
  import opened Openings

  datatype Step =
    | Submit(input: WagerInput, txId: Id, s: Stamp)
    | Retried(txId: Id, max: int, s: Stamp)
    | OpenFor(opening: OpenInput, s: Stamp)
    | Lease(ids: set<Id>, now: int, lockUntil: int)

  /** The request as the edge hands it over: prepared, then handled. */
  function Process(db: Database, input: WagerInput, txId: Id, s: Stamp): Result<Handled, Error> {
    var pending :- Prepare(input, txId, s.now);
    Handle(db, pending, CanonicalHash(input), s.(ttl := Ttl(input)))
  }

  /** ClaimPendingReferencesDue: the claimed rows become due again only when the lease ends. */
  function Leased(db: Database, ids: set<Id>, lockUntil: int): Database {
    db.(retries := map id | id in db.retries ::
          if id in ids then db.retries[id].(nextAttemptAt := lockUntil) else db.retries[id])
  }

  /** A failed step rolls back. */
  function Next(db: Database, step: Step): Database {
    match step
    case Submit(input, txId, s) =>
      (match Process(db, input, txId, s)
       case Success(h) => h.db
       case Failure(_) => db)
    case Retried(txId, max, s) =>
      (match Resolve(db, txId, max, s)
       case Success(d) => d
       case Failure(_) => db)
    case OpenFor(opening, s) =>
      (match Open(db, opening, s)
       case Success(d) => d
       case Failure(_) => db)
    case Lease(ids, _, lockUntil) => Leased(db, ids, lockUntil)
  }

  /** UUIDs are fresh, and a claim takes at most twenty rows that are due. */
  ghost predicate Admissible(db: Database, step: Step) {
    match step
    case Submit(_, txId, s) => txId != NIL && txId !in db.wallets && s.Usable()
    case Retried(_, _, s) => s.Usable()
    case OpenFor(o, s) =>
      && s.Usable() && o.walletId != NIL && o.txId != NIL && o.walletId != o.txId
      && o.walletId !in db.txs && o.txId !in db.wallets && o.txId !in db.txs
    case Lease(ids, now, _) => |ids| <= 20 && forall id | id in ids :: id in db.retries && db.retries[id].nextAttemptAt <= now
  }

  function Run(db: Database, steps: seq<Step>): Database
    decreases |steps|
  {
    if steps == [] then db else Run(Next(db, steps[0]), steps[1..])
  }

  ghost predicate AdmissibleRun(db: Database, steps: seq<Step>)
    decreases |steps|
  {
    steps != [] ==> Admissible(db, steps[0]) && AdmissibleRun(Next(db, steps[0]), steps[1..])
  }

  // ----- each decision is justified -----

  /** The matching row a verdict to move refers to. */
  lemma JudgedReference(db: Database, tx: WagerTx)
    requires db.Keyed() && Indexed(db)
    requires JudgeReference(tx, ReferenceOf(db, tx), AlreadyReversed(db, ReferenceOf(db, tx))).Move?
    ensures var ref := ReferenceOf(db, tx);
      && ref.Some? && ref.value.id in db.txs && db.txs[ref.value.id] == ref.value
      && ref.value.status == Processed && ref.value.origin == External
      && ref.value.externalId == tx.referenceExternalId
      && Mismatch(tx, ref.value).None? && ref.value.id !in db.reversalOf
      && JudgeReference(tx, ref, AlreadyReversed(db, ref)) ==
         Move(if ref.value.kind == Bet then Credit else Debit, Some(ref.value.id))
      && (ref.value.kind == Bet || (tx.kind == Rollback && (ref.value.kind == Win || ref.value.kind == Refund)))
  {
    ExternalLookup(db, tx.providerId, tx.referenceExternalId);
  }

  /** What lands is a rejection, or the verdict itself carried out on the wallet. */
  lemma LandIsJustified(db: Database, tx: WagerTx, w: Wallet, v: Verdict, s: Stamp)
    requires w.id == tx.walletId && Owned(w, tx)
    requires v.Park? ==> tx.status == Pending && tx.IsReversal()
    requires v.Keep? ==> tx.kind == Loss
    requires v.Move? && v.reference.None? ==> v.direction == (if tx.kind == Bet then Debit else Credit) && tx.kind in {Bet, Win}
    requires v.Move? && v.reference.Some? ==> var r := v.reference.value;
      && tx.IsReversal() && r in db.txs && db.txs[r].status == Processed && db.txs[r].origin == External
      && db.txs[r].externalId == tx.referenceExternalId
      && Mismatch(tx, db.txs[r]).None? && Reversible(tx, db.txs[r]) && r !in db.reversalOf
      && v.direction == (if db.txs[r].kind == Bet then Credit else Debit)
    ensures var l := Land(w, tx, v, s.ids.entry, s.now); l.Stopped? || Justified(db, tx, w, l, s)
  {
  }

  /** A new transaction's landing is justified, unless the request is refused as a whole. */
  lemma LandedIsJustified(db: Database, tx: WagerTx, w: Wallet, s: Stamp)
    requires db.Keyed() && Indexed(db)
    requires tx.status == Pending && tx.walletId == w.id && tx.kind != Opening && !tx.kind.Unknown?
    ensures var l := Landed(db, tx, w, s); l.Stopped? || Justified(db, tx, w, l, s)
  {
    var ref := ReferenceOf(db, tx);
    var v := Judge(w, tx, ref, AlreadyReversed(db, ref));
    if Owned(w, tx) {
      if tx.IsReversal() && v.Move? {
        JudgedReference(db, tx);
      }
      LandIsJustified(db, tx, w, v, s);
    }
  }

  /** A resolver's landing is justified likewise. */
  lemma ResolutionIsJustified(db: Database, tx: WagerTx, retry: Retry, w: Wallet, max: int, s: Stamp)
    requires db.Keyed() && Indexed(db) && tx.walletId == w.id && tx.IsReversal() && Owned(w, tx)
    ensures match ResolutionFor(db, tx, retry, w, max, s)
      case Again => true
      case Final(l) => l.Stopped? || Justified(db, tx, w, l, s)
  {
    var ref := ReferenceOf(db, tx);
    if !Unsettled(ref) {
      var v := JudgeReference(tx, ref, AlreadyReversed(db, ref));
      if v.Move? {
        JudgedReference(db, tx);
      }
      LandIsJustified(db, tx, w, v, s);
    }
  }

  /** With its own row inserted, a transaction finds itself under its own external id, and otherwise what was there. */
  lemma InsertedReference(db: Database, tx: WagerTx)
    requires db.Keyed() && Indexed(db) && tx.id !in db.txs && tx.origin == External
    ensures ReferenceOf(db.Insert(tx), tx) ==
      if tx.referenceExternalId == tx.externalId then Some(tx) else ReferenceOf(db, tx)
  {
    var k := (tx.providerId, tx.referenceExternalId);
    assert k in db.byExternal ==> ExternalEntry(db, k, db.byExternal[k]);
  }

  // ----- each step keeps the invariant -----

  /** What Prepare guarantees of the row. */
  lemma PreparedRow(input: WagerInput, txId: Id, now: int)
    requires Prepare(input, txId, now).Success?
    ensures var t := Prepare(input, txId, now).value;
      && t.status == Pending && t.origin == External && t.payloadHash.Some? && t.kind != Opening && !t.kind.Unknown?
      && (if t.kind == Loss then t.amount.IsZero() else t.amount.IsPositive())
      && t.referenceId.None? && t.failureCode.None? && t.resultBalance.None?
      && t.id == txId && t.id != NIL && t.playerId != NIL && t.walletId != NIL
      && t.providerId == input.providerId && t.externalId == input.externalId && t.idempotencyKey == input.idempotencyKey
      && t.walletId == input.walletId && t.referenceExternalId == input.referenceExternalId
      && t.kind == input.kind && t.amount == input.money && t.playerId == input.playerId && t.roundId == input.roundId
  {
  }

  /** Settling: the row is inserted, lands, and nothing stays open. */
  lemma SettleKeeps(db: Database, pending: WagerTx, s: Stamp)
    requires Inv(db, {}) && Enterable(db, pending)
    ensures var r := Settle(db, pending, s);
      var e := db.Insert(pending);
      var w := db.wallets[pending.walletId];
      var l := Landed(e, pending, w, s);
      && (r.Success? <==> !l.Stopped?)
      && (r.Success? ==>
            && Justified(e, pending, w, l, s) && Landable(e, pending, {pending.id}) && Inv(e, {pending.id})
            && r.value.db == Outcome(e, pending, w, l, s) && Inv(r.value.db, {})
            && r.value.result == WagerResult(FinalRow(pending, w, l, s.now), BalanceAfter(w, l), false))
  {
    hide Inv, Justified, Outcome, Identities, Indexed, Landed, Write, Marked;
    var e := db.Insert(pending);
    var w := db.wallets[pending.walletId];
    InsertKeeps(db, pending);
    InvKeys(e, {pending.id});
    InvKeys(db, {});
    LandedIsJustified(e, pending, w, s);
    var l := Landed(e, pending, w, s);
    if l.Stopped? {
      StoppedFails(e, pending, w, l, s);
    } else {
      LandingKeeps(e, pending, w, l, s, {pending.id});
      MarkedIs(e, pending, w, l, s, {pending.id});
    }
  }

  lemma InvKeys(db: Database, open: set<Id>)
    requires Inv(db, open)
    ensures db.Keyed() && Indexed(db) && Identities(db)
  {
  }

  lemma EnterableHere(db: Database, input: WagerInput, txId: Id, now: int)
    requires Prepare(input, txId, now).Success? && txId !in db.wallets && txId !in db.txs && input.walletId in db.wallets
    requires db.ByExternalId(input.providerId, input.externalId).None?
    requires db.ByIdempotencyKey(input.providerId, input.idempotencyKey).None?
    ensures Enterable(db, Prepare(input, txId, now).value)
  {
    PreparedRow(input, txId, now);
  }

  /** A request that changes the tables was settled, on a known wallet, with all its keys free. */
  lemma ChangesBySettling(db: Database, pending: WagerTx, hash: PayloadHash, s: Stamp)
    requires Handle(db, pending, hash, s).Success? && Handle(db, pending, hash, s).value.db != db
    ensures db.ByExternalId(pending.providerId, pending.externalId).None?
    ensures db.ByIdempotencyKey(pending.providerId, pending.idempotencyKey).None?
    ensures pending.walletId in db.wallets && pending.id !in db.txs
    ensures Handle(db, pending, hash, s) == Settle(db, pending, s)
  {
    hide Settle, Replay;
  }

  /** A request either changes nothing or settles a new row. */
  lemma ProcessKeeps(db: Database, input: WagerInput, txId: Id, s: Stamp)
    requires Inv(db, {}) && txId !in db.wallets
    ensures match Process(db, input, txId, s)
      case Success(h) => Inv(h.db, {})
      case Failure(_) => true
  {
    hide Inv, Settle, Handle, Prepare, Outcome, Justified, Landed, Enterable;
    if Process(db, input, txId, s).Success? && Process(db, input, txId, s).value.db != db {
      var pending := Prepare(input, txId, s.now).value;
      PreparedRow(input, txId, s.now);
      ChangesBySettling(db, pending, CanonicalHash(input), s.(ttl := Ttl(input)));
      EnterableHere(db, input, txId, s.now);
      SettleKeeps(db, pending, s.(ttl := Ttl(input)));
    }
  }

  /** A parked row names its wallet's player and currency, and waits for its retry row. */
  lemma ParkedRow(db: Database, id: Id)
    requires Inv(db, {}) && id in db.txs && db.txs[id].status == PendingReference
    ensures var tx := db.txs[id];
      && tx.id == id && tx.walletId in db.wallets && db.wallets[tx.walletId].id == tx.walletId
      && tx.IsReversal() && Owned(db.wallets[tx.walletId], tx)
      && id in db.retries && db.retries[id].attempts >= 0 && Landable(db, tx, {})
      && db.Keyed() && Indexed(db)
  {
    assert Shape(db, db.txs[id], {});
  }

  /** Changing retry rows without adding or removing any leaves the invariant alone. */
  lemma RetriesKeep(db: Database, retries: map<Id, Retry>)
    requires Inv(db, {}) && retries.Keys == db.retries.Keys
    requires forall id | id in retries :: retries[id].attempts >= 0 || retries[id].attempts >= db.retries[id].attempts
    ensures Inv(db.(retries := retries), {})
  {
    hide Identities, Indexed, Shapes, Reversals, Chains, Booked, Announced, SameSettled;
    var d := db.(retries := retries);
    RetriesKeepRows(db, retries);
    SettledStay(db, retries);
    InvOwned(db);
    ReversalsFrame(db, d);
    BooksFrame(db, d);
    AnnouncedFrame(db, d);
  }

  lemma SettledStay(db: Database, retries: map<Id, Retry>)
    ensures SameSettled(db, db.(retries := retries))
  {
  }

  lemma InvOwned(db: Database)
    requires Identities(db)
    ensures forall id | id in db.txs :: db.txs[id].walletId in db.wallets
  {
  }

  lemma RetriesKeepRows(db: Database, retries: map<Id, Retry>)
    requires Identities(db) && Indexed(db) && Shapes(db, {}) && retries.Keys == db.retries.Keys
    requires forall id | id in retries :: retries[id].attempts >= 0 || retries[id].attempts >= db.retries[id].attempts
    ensures var d := db.(retries := retries); Identities(d) && Indexed(d) && Shapes(d, {})
  {
    var d := db.(retries := retries);
    hide Indexed, WalletRow, OwnerEntry, Shape;
    RetriesKeepIdentities(db, retries);
    RetriesKeepIndexed(db, retries);
    forall id | id in d.txs
      ensures Shape(d, d.txs[id], {})
    {
      assert Shape(db, db.txs[id], {});
      RetriesKeepShape(db, retries, db.txs[id]);
    }
  }

  lemma RetriesKeepShape(db: Database, retries: map<Id, Retry>, t: WagerTx)
    requires t.walletId in db.wallets && Shape(db, t, {}) && retries.Keys == db.retries.Keys
    requires t.id in retries ==> retries[t.id].attempts >= 0 || retries[t.id].attempts >= db.retries[t.id].attempts
    ensures Shape(db.(retries := retries), t, {})
  {
    assert db.(retries := retries).Events(t.id) == db.Events(t.id);
  }

  lemma RetriesKeepIdentities(db: Database, retries: map<Id, Retry>)
    requires Identities(db) && retries.Keys == db.retries.Keys
    ensures Identities(db.(retries := retries))
  {
    hide WalletRow, OwnerEntry;
    SameOwners(db, db.(retries := retries));
  }

  lemma RetriesKeepIndexed(db: Database, retries: map<Id, Retry>)
    requires Indexed(db)
    ensures Indexed(db.(retries := retries))
  {
    var d := db.(retries := retries);
    forall id | id in d.txs && d.txs[id].origin == External
      ensures RowIndexed(d, d.txs[id])
    {
      assert RowIndexed(db, db.txs[id]);
    }
    forall k | k in d.byExternal
      ensures ExternalEntry(d, k, d.byExternal[k])
    {
      assert ExternalEntry(db, k, db.byExternal[k]);
    }
    forall k | k in d.byKey
      ensures KeyEntry(d, k, d.byKey[k])
    {
      assert KeyEntry(db, k, db.byKey[k]);
    }
  }

  /** A resolver execution reschedules, settles the row for good, or changes nothing. */
  lemma ResolveKeeps(db: Database, txId: Id, max: int, s: Stamp)
    requires Inv(db, {})
    ensures match Resolve(db, txId, max, s)
      case Success(d) => Inv(d, {})
      case Failure(_) => true
  {
    hide Inv, Write, ResolutionFor;
    if txId in db.txs && db.txs[txId].status == PendingReference {
      ResolveCases(db, txId, max, s);
    }
  }

  /** The cases a parked row has, under the invariant. */
  lemma ResolveCases(db: Database, txId: Id, max: int, s: Stamp)
    requires Inv(db, {}) && txId in db.txs && db.txs[txId].status == PendingReference
    ensures var tx := db.txs[txId];
      && tx.id == txId && tx.walletId in db.wallets && txId in db.retries
      && db.wallets[tx.walletId].id == tx.walletId && Landable(db, tx, {})
      && var w, retry := db.wallets[tx.walletId], db.retries[txId];
         match ResolutionFor(db, tx, retry, w, max, s)
         case Again =>
           var d := db.(retries := db.retries[txId := Rescheduled(retry, s.now)]);
           Resolve(db, txId, max, s) == Success(d) && Inv(d, {})
         case Final(l) =>
           if l.Stopped? then Resolve(db, txId, max, s) == Failure(l.error)
           else Justified(db, tx, w, l, s) && Resolve(db, txId, max, s) == Success(Outcome(db, tx, w, l, s)) &&
                Inv(Outcome(db, tx, w, l, s), {})
  {
    hide Inv, Justified, Outcome, Write, ResolutionFor, Indexed;
    ParkedRow(db, txId);
    var tx := db.txs[txId];
    var w, retry := db.wallets[tx.walletId], db.retries[txId];
    ResolutionIsJustified(db, tx, retry, w, max, s);
    match ResolutionFor(db, tx, retry, w, max, s) {
      case Again =>
        RetriesKeep(db, db.retries[txId := Rescheduled(retry, s.now)]);
      case Final(l) =>
        if l.Stopped? {
          StoppedFails(db, tx, w, l, s);
        } else {
          LandingKeeps(db, tx, w, l, s, {});
        }
    }
  }

  lemma StoppedFails(db: Database, tx: WagerTx, w: Wallet, l: Landing, s: Stamp)
    requires l.Stopped?
    ensures Write(db, tx, w, l, s) == Failure(l.error)
  {
  }

  // ----- runs -----

  /** One step keeps the invariant. */
  lemma StepKeeps(db: Database, step: Step)
    requires Inv(db, {}) && Admissible(db, step)
    ensures Inv(Next(db, step), {})
  {
    hide Inv, Process, Resolve, Open, Opened;
    match step {
      case Submit(input, txId, s) => ProcessKeeps(db, input, txId, s);
      case Retried(txId, max, s) => ResolveKeeps(db, txId, max, s);
      case OpenFor(o, s) => OpenKeeps(db, o, s);
      case Lease(ids, now, lockUntil) =>
        RetriesKeep(db, Leased(db, ids, lockUntil).retries);
    }
  }

  /** Every run keeps it. */
  lemma {:induction false} RunKeeps(db: Database, steps: seq<Step>)
    requires Inv(db, {}) && AdmissibleRun(db, steps)
    ensures Inv(Run(db, steps), {})
    decreases |steps|
  {
    if steps != [] {
      hide Inv, Next, Admissible;
      StepKeeps(db, steps[0]);
      RunKeeps(Next(db, steps[0]), steps[1..]);
    }
  }

  /** An empty database meets the invariant. */
  lemma EmptyIsFine()
    ensures Inv(EMPTY, {})
  {
  }

  /** Whatever runs from the empty database, the invariant holds of what is committed. */
  lemma Reachable(steps: seq<Step>)
    requires AdmissibleRun(EMPTY, steps)
    ensures Inv(Run(EMPTY, steps), {})
  {
    EmptyIsFine();
    hide Inv;
    RunKeeps(EMPTY, steps);
  }

  lemma {:induction false} RunConcat(db: Database, a: seq<Step>, b: seq<Step>)
    ensures Run(db, a + b) == Run(Run(db, a), b)
    ensures AdmissibleRun(db, a + b) <==> AdmissibleRun(db, a) && AdmissibleRun(Run(db, a), b)
    decreases |a|
  {
    if a == [] {
      assert a + b == b;
    } else {
      hide Next, Admissible;
      assert (a + b)[0] == a[0] && (a + b)[1..] == a[1..] + b;
      RunConcat(Next(db, a[0]), a[1..], b);
    }
  }

  lemma OneStep(db: Database, step: Step)
    ensures Run(db, [step]) == Next(db, step)
    ensures AdmissibleRun(db, [step]) <==> Admissible(db, step)
  {
    hide Next, Admissible;
  }

  lemma EmptyRun(db: Database)
    ensures Run(db, []) == db && AdmissibleRun(db, [])
  {
  }
}

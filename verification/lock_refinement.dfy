/**
 Every interleaving refines a serial run: the committed tables are those of the committed
 executions done one after the other, in commit order, which on each wallet is the order of
 its locks. The version guard never fires, and neither does any unique index.
 */
module LockRefinement {
  import opened Wrappers
  import opened Apperr
  import opened DomainMoney
  import opened DomainWagering
  import opened DomainWallet
  import opened DomainEvent
  import opened Postgres
  import opened AppProcess
  import opened AppResolve
  import opened AppOpen
  import opened Invariants
  import opened Settlement
  import opened Openings
  import opened Runs
  import opened History
  import opened Replays
  import opened Conservation
  import opened Commits
  import opened Parking
  import opened Locking

  // ----- what an execution has read is still so -----

  /** The request's row is new; the resolver's row is parked and is the one it read. */
  ghost predicate Known(db: Database, e: Execution) {
    && e.work.s.Usable()
    && match e.work
       case Request(input, txId, s) =>
         Prepare(input, txId, s.now).Success? && txId !in db.txs && txId !in db.wallets
       case Resolver(txId, _, _) =>
         e.phase.Fresh? || (IsParked(db, txId) && e.first == Some(db.txs[txId]))
  }

  /** No one else counts attempts: what was read of the retry row is what it says. */
  ghost predicate RetryRead(db: Database, e: Execution) {
    e.work.Resolver? && !e.phase.Fresh? && !e.phase.Unclaimed? ==>
      && e.retry.Some? && e.work.txId in db.retries
      && e.retry.value.attempts == db.retries[e.work.txId].attempts
      && e.retry.value.expiresAt == db.retries[e.work.txId].expiresAt
  }

  ghost predicate WalletRead(db: Database, e: Execution, w: Wallet) {
    e.WalletId() in db.wallets && w == db.wallets[e.WalletId()] && w.id == e.WalletId()
  }

  ghost predicate RowRead(db: Database, e: Execution, tx: WagerTx)
    requires Known(db, e)
  {
    match e.work
    case Request(input, _, _) =>
      && tx == PendingOf(e.work)
      && db.ByExternalId(input.providerId, input.externalId).None?
      && db.ByIdempotencyKey(input.providerId, input.idempotencyKey).None?
    case Resolver(txId, _, _) => !e.phase.Fresh? && tx == db.txs[txId]
  }

  /** By now the reference is settled, on another wallet. */
  ghost predicate Foreign(base: Database, tx: WagerTx, walletId: Id) {
    var ref := ReferenceOf(base, tx);
    !Unsettled(ref) && ref.value.walletId != walletId
  }

  /** A settled reference stays as it was seen; an unsettled one can only be overtaken from another wallet. */
  ghost predicate ReferenceRead(base: Database, tx: WagerTx, walletId: Id, ref: Option<WagerTx>) {
    if Unsettled(ref) then Unsettled(ReferenceOf(base, tx)) || Foreign(base, tx, walletId)
    else ReferenceOf(base, tx) == ref
  }

  ghost predicate DecisionStands(db: Database, e: Execution, w: Wallet, tx: WagerTx, res: Resolution) {
    && (res.Final? ==> !res.landing.Stopped?)
    && (|| res == Now(db, e, w, tx)
        || (Foreign(Base(db, e.work, tx), tx, w.id) && Owned(w, tx) && tx.IsReversal() &&
            res == Decision(e, w, tx, None, false)))
  }

  ghost predicate Sound(db: Database, e: Execution) {
    && Known(db, e) && RetryRead(db, e)
    && match e.phase
       case Orphaned => false
       case Holding(w) => WalletRead(db, e, w)
       case Entered(w, tx) => WalletRead(db, e, w) && RowRead(db, e, tx)
       case Seen(w, tx, ref) =>
         && WalletRead(db, e, w) && RowRead(db, e, tx) && Owned(w, tx) && tx.IsReversal()
         && ReferenceRead(Base(db, e.work, tx), tx, w.id, ref)
       case Decided(w, tx, res) =>
         WalletRead(db, e, w) && RowRead(db, e, tx) && DecisionStands(db, e, w, tx, res)
       case _ => true
  }

  // ----- what a commit leaves alone -----

  ghost predicate RowsBeside(db: Database, d: Database, own: Id, v: Id) {
    && (forall id | id in db.txs && id != own :: id in d.txs && d.txs[id] == db.txs[id])
    && (forall id | id in d.txs && id != own :: id in db.txs)
    && (own in d.txs ==> d.txs[own].walletId == v)
    && (own in db.txs ==> own in d.txs && db.txs[own].status == PendingReference && db.txs[own].walletId == v)
  }

  ghost predicate WalletsBeside(db: Database, d: Database, own: Id, v: Id) {
    && (forall id | id in db.wallets && id != v :: id in d.wallets && d.wallets[id] == db.wallets[id])
    && (forall id | id in d.wallets && id != v :: id in db.wallets)
    && (forall id | id in db.retries && id != own :: id in d.retries &&
          d.retries[id].attempts == db.retries[id].attempts && d.retries[id].expiresAt == db.retries[id].expiresAt)
    && (forall r | r in db.reversalOf :: r in d.reversalOf)
    && (forall r | r in d.reversalOf && r !in db.reversalOf :: r in db.txs && db.txs[r].walletId == v)
  }

  /** The unique keys grow at most by those of the new row. */
  ghost predicate KeysBeside(db: Database, d: Database, own: Id) {
    && (forall k | k in db.byExternal :: k in d.byExternal && d.byExternal[k] == db.byExternal[k])
    && (forall k | k in db.byKey :: k in d.byKey && d.byKey[k] == db.byKey[k])
    && (forall k | k in d.byExternal && k !in db.byExternal ::
          own !in db.txs && own in d.txs && d.byExternal[k] == own && k == (d.txs[own].providerId, d.txs[own].externalId))
    && (forall k | k in d.byKey && k !in db.byKey ::
          own !in db.txs && own in d.txs && d.byKey[k] == own && k == (d.txs[own].providerId, d.txs[own].idempotencyKey))
  }

  /** A commit for row own on wallet v touches nothing but its own row, wallet and keys. */
  ghost predicate Beside(db: Database, d: Database, own: Id, v: Id) {
    RowsBeside(db, d, own, v) && WalletsBeside(db, d, own, v) && KeysBeside(db, d, own)
  }

  /** A settled reference stays; an unsettled one changes only if it is on the committing wallet. */
  lemma ReferenceMoves(db: Database, d: Database, own: Id, v: Id, tx: WagerTx)
    requires RowsBeside(db, d, own, v) && KeysBeside(db, d, own) && Indexed(db)
    ensures var before, after := ReferenceOf(db, tx), ReferenceOf(d, tx);
      if Unsettled(before) then Unsettled(after) || after.value.walletId == v else after == before
  {
    var k := (tx.providerId, tx.referenceExternalId);
    assert k in db.byExternal ==> ExternalEntry(db, k, db.byExternal[k]);
  }

  lemma BaseReferenceMoves(db: Database, d: Database, own: Id, v: Id, work: Work, tx: WagerTx)
    requires RowsBeside(db, d, own, v) && KeysBeside(db, d, own) && Indexed(db) && Indexed(d) && db.Keyed() && d.Keyed()
    requires work.Request? ==> tx.id !in db.txs && tx.id !in d.txs && tx.origin == External && tx.status == Pending
    ensures var before, after := ReferenceOf(Base(db, work, tx), tx), ReferenceOf(Base(d, work, tx), tx);
      if Unsettled(before) then Unsettled(after) || after.value.walletId == v else after == before
  {
    ReferenceMoves(db, d, own, v, tx);
    if work.Request? {
      InsertedReference(db, tx);
      InsertedReference(d, tx);
    }
  }

  /** A decision does not look at an unsettled reference, nor at the index unless the reference is on its wallet. */
  lemma DecisionDependsOn(e: Execution, w: Wallet, tx: WagerTx, ref: Option<WagerTx>, reversed: bool, other: bool)
    ensures Unsettled(ref) ==> Decision(e, w, tx, ref, reversed) == Decision(e, w, tx, None, false)
    ensures !Unsettled(ref) && (ref.value.walletId == tx.walletId ==> reversed == other) ==>
      Decision(e, w, tx, ref, reversed) == Decision(e, w, tx, ref, other)
  {
  }

  /** What was decided before another wallet's commit stands after it. */
  lemma DecisionKept(db: Database, d: Database, own: Id, v: Id, e: Execution, w: Wallet, tx: WagerTx, res: Resolution)
    requires Beside(db, d, own, v) && Indexed(db) && Indexed(d) && db.Keyed() && d.Keyed()
    requires e.work.Request? ==> tx.id !in db.txs && tx.id !in d.txs && tx.origin == External && tx.status == Pending
    requires tx.walletId == w.id && w.id != v && DecisionStands(db, e, w, tx, res)
    requires e.work.Resolver? ==> Owned(w, tx) && tx.IsReversal()
    ensures DecisionStands(d, e, w, tx, res)
  {
    hide RowsBeside, KeysBeside, Decision, Base;
    BaseReferenceMoves(db, d, own, v, e.work, tx);
    var b, c := Base(db, e.work, tx), Base(d, e.work, tx);
    var before, after := ReferenceOf(b, tx), ReferenceOf(c, tx);
    SameReversals(db, e.work, tx);
    SameReversals(d, e.work, tx);
    hide ReferenceOf;
    DecisionDependsOn(e, w, tx, before, AlreadyReversed(b, before), AlreadyReversed(c, before));
    DecisionDependsOn(e, w, tx, after, AlreadyReversed(c, after), AlreadyReversed(c, after));
    OwnWalletReversals(db, d, own, v, e, tx, w);
    NotOwnedIgnores(e, w, tx, before, AlreadyReversed(b, before), after, AlreadyReversed(c, after));
  }

  lemma SameReversals(db: Database, work: Work, tx: WagerTx)
    ensures Base(db, work, tx).reversalOf == db.reversalOf
  {
  }

  /** The reversal query answers the same for a settled reference on another wallet than v. */
  lemma OwnWalletReversals(db: Database, d: Database, own: Id, v: Id, e: Execution, tx: WagerTx, w: Wallet)
    requires Beside(db, d, own, v) && Indexed(db) && db.Keyed() && w.id != v
    requires e.work.Request? ==> tx.id !in db.txs && tx.origin == External && tx.status == Pending
    ensures var before := ReferenceOf(Base(db, e.work, tx), tx);
      !Unsettled(before) && before.value.walletId == w.id ==>
        (before.value.id in db.reversalOf <==> before.value.id in d.reversalOf)
  {
    if e.work.Request? {
      InsertedReference(db, tx);
    }
    var k := (tx.providerId, tx.referenceExternalId);
    assert k in db.byExternal ==> ExternalEntry(db, k, db.byExternal[k]);
  }

  /** A request that is not a reversal, or not its wallet's, never looks at a reference. */
  lemma NotOwnedIgnores(e: Execution, w: Wallet, tx: WagerTx, a: Option<WagerTx>, ra: bool, b: Option<WagerTx>, rb: bool)
    ensures e.work.Request? && !(Owned(w, tx) && tx.IsReversal()) ==> Decision(e, w, tx, a, ra) == Decision(e, w, tx, b, rb)
  {
  }

  /** The committing execution and e are told apart by row, by wallet while e holds its lock, and by keys. */
  ghost predicate ToldApart(db: Database, d: Database, own: Id, v: Id, e: Execution) {
    && e.work.txId != own && e.work.txId !in d.wallets
    && (e.phase.Locks() ==> e.WalletId() != v)
    && (e.work.Request? && e.phase.InFlight() && own in d.txs && own !in db.txs && d.txs[own].origin == External ==>
          !(d.txs[own].providerId == e.work.input.providerId && d.txs[own].externalId == e.work.input.externalId) &&
          !(d.txs[own].providerId == e.work.input.providerId && d.txs[own].idempotencyKey == e.work.input.idempotencyKey))
  }

  lemma KnownStays(db: Database, d: Database, own: Id, v: Id, e: Execution)
    requires Known(db, e) && Beside(db, d, own, v) && ToldApart(db, d, own, v, e)
    ensures Known(d, e)
  {
  }

  lemma RetryStays(db: Database, d: Database, own: Id, v: Id, e: Execution)
    requires RetryRead(db, e) && Beside(db, d, own, v) && ToldApart(db, d, own, v, e)
    ensures RetryRead(d, e)
  {
  }

  lemma WalletStays(db: Database, d: Database, own: Id, v: Id, e: Execution, w: Wallet)
    requires WalletRead(db, e, w) && Beside(db, d, own, v) && e.WalletId() != v
    ensures WalletRead(d, e, w)
  {
  }

  lemma RowStays(db: Database, d: Database, own: Id, v: Id, e: Execution, tx: WagerTx)
    requires Known(db, e) && Known(d, e) && RowRead(db, e, tx) && Beside(db, d, own, v) && ToldApart(db, d, own, v, e)
    requires e.phase.InFlight() && Indexed(db) && Indexed(d)
    ensures RowRead(d, e, tx)
  {
    if e.work.Request? {
      var k := (e.work.input.providerId, e.work.input.externalId);
      var j := (e.work.input.providerId, e.work.input.idempotencyKey);
      assert k in db.byExternal ==> ExternalEntry(db, k, db.byExternal[k]);
      assert j in db.byKey ==> KeyEntry(db, j, db.byKey[j]);
      assert k in d.byExternal ==> ExternalEntry(d, k, d.byExternal[k]);
      assert j in d.byKey ==> KeyEntry(d, j, d.byKey[j]);
      hide Indexed;
    }
  }

  /** What the row of an execution under way looks like. */
  lemma RowFacts(db: Database, e: Execution, tx: WagerTx)
    requires Inv(db, {}) && Known(db, e) && RowRead(db, e, tx)
    ensures e.work.Request? ==>
      tx.id !in db.txs && tx.origin == External && tx.status == Pending && tx.walletId == e.WalletId() && tx.id == e.work.txId
    ensures e.work.Resolver? ==>
      tx.id == e.work.txId && tx.walletId == e.WalletId() && tx.IsReversal() && tx.walletId in db.wallets &&
      Owned(db.wallets[tx.walletId], tx)
  {
    hide Inv;
    match e.work {
      case Request(input, txId, s) => PreparedRow(input, txId, s.now);
      case Resolver(txId, _, _) => ParkedRow(db, txId);
    }
  }

  /** A commit elsewhere leaves every other execution's reads valid. */
  lemma SoundStays(db: Database, d: Database, own: Id, v: Id, e: Execution)
    requires Inv(db, {}) && Inv(d, {}) && Sound(db, e) && Beside(db, d, own, v) && ToldApart(db, d, own, v, e)
    ensures Sound(d, e)
  {
    hide Inv, Known, RetryRead, WalletRead, RowRead, ReferenceRead, DecisionStands, Beside, Base;
    InvKeys(db, {});
    InvKeys(d, {});
    KnownStays(db, d, own, v, e);
    RetryStays(db, d, own, v, e);
    match e.phase {
      case Holding(w) => WalletStays(db, d, own, v, e, w);
      case Entered(w, tx) =>
        WalletStays(db, d, own, v, e, w);
        RowStays(db, d, own, v, e, tx);
      case Seen(w, tx, ref) =>
        WalletStays(db, d, own, v, e, w);
        RowStays(db, d, own, v, e, tx);
        RowFacts(db, e, tx);
        RowFacts(d, e, tx);
        ReferenceStays(db, d, own, v, e, w, tx, ref);
      case Decided(w, tx, res) =>
        WalletStays(db, d, own, v, e, w);
        RowStays(db, d, own, v, e, tx);
        RowFacts(db, e, tx);
        RowFacts(d, e, tx);
        WalletIsRow(db, e, w);
        DecisionKept(db, d, own, v, e, w, tx, res);
      case _ =>
    }
  }

  lemma WalletIsRow(db: Database, e: Execution, w: Wallet)
    requires WalletRead(db, e, w)
    ensures w.id == e.WalletId() && w.id in db.wallets && db.wallets[w.id] == w
  {
  }

  lemma ReferenceStays(db: Database, d: Database, own: Id, v: Id, e: Execution, w: Wallet, tx: WagerTx, ref: Option<WagerTx>)
    requires Beside(db, d, own, v) && Indexed(db) && Indexed(d) && db.Keyed() && d.Keyed()
    requires e.work.Request? ==> tx.id !in db.txs && tx.id !in d.txs && tx.origin == External && tx.status == Pending
    requires WalletRead(db, e, w) && e.WalletId() != v && ReferenceRead(Base(db, e.work, tx), tx, w.id, ref)
    ensures ReferenceRead(Base(d, e.work, tx), tx, w.id, ref)
  {
    BaseReferenceMoves(db, d, own, v, e.work, tx);
    hide RowsBeside, WalletsBeside, KeysBeside, Base, ReferenceOf;
  }

  // ----- a commit does what the serial step does -----

  /** The landing writes its own row, its own wallet and its own retry row, and indexes one reversal on its wallet. */
  lemma OutcomeBeside(db: Database, tx: WagerTx, w: Wallet, l: Landing, s: Stamp)
    requires tx.id in db.txs && db.txs[tx.id] == tx && tx.walletId == w.id && w.id in db.wallets && w == db.wallets[w.id]
    requires Justified(db, tx, w, l, s)
    ensures var d := Outcome(db, tx, w, l, s);
      && d.txs == db.txs[tx.id := FinalRow(tx, w, l, s.now)]
      && FinalRow(tx, w, l, s.now).walletId == w.id && FinalRow(tx, w, l, s.now).providerId == tx.providerId
      && FinalRow(tx, w, l, s.now).externalId == tx.externalId
      && FinalRow(tx, w, l, s.now).idempotencyKey == tx.idempotencyKey
      && WalletsBeside(db, d, tx.id, w.id) && d.byExternal == db.byExternal && d.byKey == db.byKey
  {
    var d := Outcome(db, tx, w, l, s);
    OutcomeRetriesBeside(db, tx, w, l, s);
    OutcomeReversalsBeside(db, tx, w, l, s);
    hide FinalOutbox, FinalRetries;
    assert forall id | id in d.wallets && id != w.id :: id in db.wallets && d.wallets[id] == db.wallets[id];
    assert forall id | id in db.wallets :: id in d.wallets;
  }

  lemma OutcomeRetriesBeside(db: Database, tx: WagerTx, w: Wallet, l: Landing, s: Stamp)
    ensures var d := Outcome(db, tx, w, l, s);
      forall id | id in db.retries && id != tx.id :: id in d.retries && d.retries[id] == db.retries[id]
  {
  }

  lemma OutcomeReversalsBeside(db: Database, tx: WagerTx, w: Wallet, l: Landing, s: Stamp)
    requires Justified(db, tx, w, l, s) && tx.walletId == w.id
    ensures var d := Outcome(db, tx, w, l, s);
      && (forall r | r in db.reversalOf :: r in d.reversalOf)
      && (forall r | r in d.reversalOf && r !in db.reversalOf ::
            r in db.txs && db.txs[r].walletId == w.id && db.txs[r].status == Processed)
  {
    hide FinalOutbox, FinalRetries, FinalRow;
  }

  /** Everything a commit must be: the serial step, faithful to what was there, and nothing else touched. */
  ghost predicate GoodCommit(db: Database, e: Execution, w: Wallet, tx: WagerTx, res: Resolution) {
    match Written(db, e, w, tx, res)
    case Failure(_) => false
    case Success(d) =>
      && d == Redo(db, EntryOf(db, e, w, tx, res)) && Faithful(db, d) && Beside(db, d, e.work.txId, w.id)
      && (e.work.Request? ==>
            && e.work.txId in d.txs && d.txs[e.work.txId].providerId == e.work.input.providerId
            && d.txs[e.work.txId].externalId == e.work.input.externalId
            && d.txs[e.work.txId].idempotencyKey == e.work.input.idempotencyKey)
  }

  /** A new row's landing, on the tables with the row inserted. */
  lemma RequestBeside(db: Database, tx: WagerTx, w: Wallet, l: Landing, s: Stamp)
    requires Identities(db) && Indexed(db) && Enterable(db, tx) && w == db.wallets[tx.walletId]
    requires Justified(db.Insert(tx), tx, w, l, s)
    ensures var d := Outcome(db.Insert(tx), tx, w, l, s);
      && Beside(db, d, tx.id, w.id)
      && tx.id in d.txs && d.txs[tx.id].providerId == tx.providerId
      && d.txs[tx.id].externalId == tx.externalId && d.txs[tx.id].idempotencyKey == tx.idempotencyKey
  {
    var b := db.Insert(tx);
    var d := Outcome(b, tx, w, l, s);
    OutcomeBeside(b, tx, w, l, s);
    OutcomeReversalsBeside(b, tx, w, l, s);
    FreeKeys(db, tx);
    hide Identities, Indexed, Justified, Outcome;
    InsertedRowsBeside(db, d, tx, FinalRow(tx, w, l, s.now), w.id);
    hide FinalRow;
    InsertedWalletsBeside(db, d, tx, w.id);
    hide RowsBeside, WalletsBeside, KeysBeside;
  }

  lemma InsertedRowsBeside(db: Database, d: Database, tx: WagerTx, t: WagerTx, v: Id)
    requires tx.id !in db.txs && d.txs == db.Insert(tx).txs[tx.id := t] && t.walletId == v
    requires t.providerId == tx.providerId && t.externalId == tx.externalId && t.idempotencyKey == tx.idempotencyKey
    requires d.byExternal == db.Insert(tx).byExternal && d.byKey == db.Insert(tx).byKey
    requires (tx.providerId, tx.externalId) !in db.byExternal && (tx.providerId, tx.idempotencyKey) !in db.byKey
    ensures RowsBeside(db, d, tx.id, v) && KeysBeside(db, d, tx.id)
  {
  }

  lemma InsertedWalletsBeside(db: Database, d: Database, tx: WagerTx, v: Id)
    requires WalletsBeside(db.Insert(tx), d, tx.id, v) && tx.status == Pending
    requires forall r | r in d.reversalOf && r !in db.reversalOf ::
      r in db.Insert(tx).txs && db.Insert(tx).txs[r].walletId == v && db.Insert(tx).txs[r].status == Processed
    ensures WalletsBeside(db, d, tx.id, v)
  {
    forall r | r in d.reversalOf && r !in db.reversalOf
      ensures r in db.txs && db.txs[r].walletId == v
    {
      assert r in db.Insert(tx).txs;
    }
  }

  /** A request commits what it would do if it ran at once, or parks because it did not see its reference. */
  lemma RequestCommits(db: Database, e: Execution, w: Wallet, tx: WagerTx, res: Resolution)
    requires Inv(db, {}) && Sound(db, e) && e.work.Request? && e.phase == Decided(w, tx, res)
    ensures GoodCommit(db, e, w, tx, res)
  {
    hide Inv, Justified, Outcome, Landed, Judge, Land, Write, Identities, Indexed, Enterable, Beside, Foreign, ReferenceOf;
    hide Faithful, RowHashed;
    var input, txId, s, st := e.work.input, e.work.txId, e.work.s, e.work.TheStamp();
    PreparedRow(input, txId, s.now);
    EnterableHere(db, input, txId, s.now);
    EnterableIdentities(db, tx);
    SettleKeeps(db, tx, st);
    FreshRequest(db, input, txId, s);
    PreparedIsHashed(input, txId, s.now);
    var base := db.Insert(tx);
    if res == Now(db, e, w, tx) {
      assert res == Final(Landed(base, tx, w, st)) by { LandedIsNow(db, e, w, tx); }
      RequestBeside(db, tx, w, res.landing, st);
      NewRowIsFaithful(db, tx, w, res.landing, st);
    } else {
      assert res == Final(Parked) by { UnawareRequest(e, w, tx); }
      InsertKeeps(db, tx);
      ParkedIsJustified(base, tx, w, st);
      LandingKeeps(base, tx, w, Parked, st, {tx.id});
      RequestBeside(db, tx, w, Parked, st);
      NewRowIsFaithful(db, tx, w, Parked, st);
    }
  }

  lemma EnterableIdentities(db: Database, tx: WagerTx)
    requires Inv(db, {}) && Enterable(db, tx)
    ensures Identities(db) && Indexed(db) && db.wallets[tx.walletId].id == tx.walletId && tx.walletId in db.wallets
    ensures Landable(db.Insert(tx), tx, {tx.id})
  {
  }

  lemma LandedIsNow(db: Database, e: Execution, w: Wallet, tx: WagerTx)
    requires e.work.Request?
    ensures Now(db, e, w, tx) == Final(Landed(db.Insert(tx), tx, w, e.work.TheStamp()))
  {
  }

  lemma UnawareRequest(e: Execution, w: Wallet, tx: WagerTx)
    requires e.work.Request? && Owned(w, tx) && tx.IsReversal()
    ensures Decision(e, w, tx, None, false) == Final(Parked)
  {
  }

  lemma ParkedIsJustified(db: Database, tx: WagerTx, w: Wallet, s: Stamp)
    requires tx.status == Pending && tx.IsReversal() && Owned(w, tx)
    ensures Justified(db, tx, w, Parked, s)
  {
  }

  // ----- the same for a resolver -----

  lemma ParkedBeside(db: Database, tx: WagerTx, w: Wallet, l: Landing, s: Stamp)
    requires Identities(db) && Landable(db, tx, {}) && w == db.wallets[tx.walletId] && Justified(db, tx, w, l, s)
    ensures Beside(db, Outcome(db, tx, w, l, s), tx.id, w.id)
  {
    hide Justified, Outcome, WalletsBeside, FinalRow;
    OutcomeBeside(db, tx, w, l, s);
  }

  lemma AgainBeside(db: Database, tx: WagerTx, retry: Retry)
    requires tx.id in db.txs && db.txs[tx.id] == tx && tx.status == PendingReference && tx.walletId in db.wallets
    ensures Beside(db, db.(retries := db.retries[tx.id := retry]), tx.id, tx.walletId)
  {
  }

  /** Read when it was or read now: the decision of a resolver is the same but for the reference. */
  lemma ResolverNow(db: Database, e: Execution, w: Wallet, tx: WagerTx)
    requires e.work.Resolver? && RetryRead(db, e) && e.phase.InFlight()
    ensures e.work.txId in db.retries
    ensures Now(db, e, w, tx) == ResolutionFor(db, tx, db.retries[e.work.txId], w, e.work.max, e.work.s)
    ensures Decision(e, w, tx, None, false) ==
      if Exhausted(db.retries[e.work.txId], e.work.max, e.work.s.now) then Final(Refused(ReferenceNotFound)) else Again
    ensures Rescheduled(e.retry.value, e.work.s.now) == Rescheduled(db.retries[e.work.txId], e.work.s.now)
  {
  }

  lemma RefusedIsJustified(db: Database, tx: WagerTx, w: Wallet, code: Code, s: Stamp)
    ensures Justified(db, tx, w, Refused(code), s)
  {
  }

  /** A resolver commits what it would do if it ran at once, or uses up an attempt because it did not see its reference. */
  lemma ResolverCommits(db: Database, e: Execution, w: Wallet, tx: WagerTx, res: Resolution)
    requires Inv(db, {}) && Sound(db, e) && e.work.Resolver? && e.phase == Decided(w, tx, res)
    ensures GoodCommit(db, e, w, tx, res)
  {
    hide Inv, Justified, Outcome, Write, Identities, Indexed, Beside, Foreign, ReferenceOf, ResolutionFor;
    hide Now, Decision, Exhausted, Rescheduled, Faithful;
    var txId, max, s := e.work.txId, e.work.max, e.work.s;
    ParkedRow(db, txId);
    InvKeys(db, {});
    ResolverNow(db, e, w, tx);
    ResolveCases(db, txId, max, s);
    match res {
      case Again =>
        AgainBeside(db, tx, Rescheduled(db.retries[txId], s.now));
        AgainIsFaithful(db, txId, s.now);
      case Final(l) =>
        if res != Now(db, e, w, tx) {
          RefusedIsJustified(db, tx, w, ReferenceNotFound, s);
        }
        LandingKeeps(db, tx, w, l, s, {});
        ParkedRowIsFaithful(db, tx, w, l, s);
        ParkedBeside(db, tx, w, l, s);
    }
  }

  // ----- each statement keeps its execution sound -----

  lemma FirstReadSound(st: State, pid: nat)
    requires Inv(st.db, {}) && pid in st.running && st.running[pid].phase.Fresh? && Sound(st.db, st.running[pid])
    ensures var after := ReadFirst(st, pid, st.running[pid]);
      pid in after.running ==> Sound(st.db, after.running[pid])
  {
    hide Inv;
  }

  /** A parked row has its retry row: no execution is ever orphaned. */
  lemma SecondReadSound(st: State, pid: nat)
    requires Inv(st.db, {}) && pid in st.running && st.running[pid].phase.Unclaimed? && Sound(st.db, st.running[pid])
    ensures var after := ReadSecond(st, pid, st.running[pid]);
      pid in after.running ==> Sound(st.db, after.running[pid])
  {
    hide Inv;
    if st.running[pid].work.Resolver? {
      ParkedRow(st.db, st.running[pid].work.txId);
    }
  }

  lemma LockSound(st: State, pid: nat)
    requires Inv(st.db, {}) && pid in st.running && st.running[pid].phase.Waiting? && Sound(st.db, st.running[pid])
    ensures var after := TakeLock(st, pid, st.running[pid]);
      pid in after.running ==> Sound(st.db, after.running[pid])
  {
    hide Inv, Indexed, Identities, Locked, Prepare;
    InvKeys(st.db, {});
  }

  lemma EnterSound(st: State, pid: nat, w: Wallet)
    requires pid in st.running && st.running[pid].phase == Holding(w) && Sound(st.db, st.running[pid])
    ensures var after := Enter(st, pid, st.running[pid], w);
      pid in after.running ==> Sound(st.db, after.running[pid])
  {
  }

  /** Decisions do not depend on how far the execution has got. */
  lemma SameDecisions(db: Database, e: Execution, phase: Phase, w: Wallet, tx: WagerTx, ref: Option<WagerTx>, reversed: bool)
    ensures Now(db, e.(phase := phase), w, tx) == Now(db, e, w, tx)
    ensures Decision(e.(phase := phase), w, tx, ref, reversed) == Decision(e, w, tx, ref, reversed)
  {
  }

  /** A decision on what was seen is the one of this moment, unless another wallet overtook it. */
  lemma DecisionMade(db: Database, e: Execution, w: Wallet, tx: WagerTx, ref: Option<WagerTx>)
    requires
      || (e.work.Request? && !(Owned(w, tx) && tx.IsReversal()) && ref == None)
      || (Owned(w, tx) && tx.IsReversal() && ReferenceRead(Base(db, e.work, tx), tx, w.id, ref))
    ensures var res := Decision(e, w, tx, ref, AlreadyReversed(db, ref));
      || res == Now(db, e, w, tx)
      || (Foreign(Base(db, e.work, tx), tx, w.id) && Owned(w, tx) && tx.IsReversal() &&
          res == Decision(e, w, tx, None, false))
  {
    var base := Base(db, e.work, tx);
    SameReversals(db, e.work, tx);
    hide ReferenceOf, Base;
    var cur := ReferenceOf(base, tx);
    var ra, rb := AlreadyReversed(db, ref), AlreadyReversed(base, cur);
    NotOwnedIgnores(e, w, tx, ref, ra, cur, rb);
    DecisionDependsOn(e, w, tx, ref, ra, false);
    DecisionDependsOn(e, w, tx, cur, rb, false);
    hide Decision;
  }

  /** The execution goes on with its decision. */
  lemma DecideSound(st: State, pid: nat, w: Wallet, tx: WagerTx, ref: Option<WagerTx>)
    requires pid in st.running && st.running[pid].phase.InFlight()
    requires var e := st.running[pid];
      && Known(st.db, e) && RetryRead(st.db, e) && WalletRead(st.db, e, w) && RowRead(st.db, e, tx)
      && (|| (e.work.Request? && !(Owned(w, tx) && tx.IsReversal()) && ref == None)
          || (Owned(w, tx) && tx.IsReversal() && ReferenceRead(Base(st.db, e.work, tx), tx, w.id, ref)))
    ensures var after := Decide(st, pid, st.running[pid], w, tx, ref);
      pid in after.running ==> Sound(st.db, after.running[pid])
  {
    var e := st.running[pid];
    var res := Decision(e, w, tx, ref, AlreadyReversed(st.db, ref));
    DecisionMade(st.db, e, w, tx, ref);
    SameDecisions(st.db, e, Decided(w, tx, res), w, tx, None, false);
    hide Decision, Now, Foreign, ReferenceRead;
  }

  lemma LookUpSound(st: State, pid: nat, w: Wallet, tx: WagerTx)
    requires Inv(st.db, {}) && pid in st.running && st.running[pid].phase == Entered(w, tx) && Sound(st.db, st.running[pid])
    ensures var after := LookUp(st, pid, st.running[pid], w, tx);
      pid in after.running ==> Sound(st.db, after.running[pid])
  {
    var e := st.running[pid];
    RowFacts(st.db, e, tx);
    hide Inv, ReferenceOf, Decide, RetryRead;
    if e.work.Request? && !(Owned(w, tx) && tx.IsReversal()) {
      DecideSound(st, pid, w, tx, None);
    } else {
      var ref := ReferenceOf(Base(st.db, e.work, tx), tx);
      SeenSound(st.db, e, w, tx, ref);
    }
  }

  lemma SeenSound(db: Database, e: Execution, w: Wallet, tx: WagerTx, ref: Option<WagerTx>)
    requires Sound(db, e) && e.phase == Entered(w, tx) && Owned(w, tx) && tx.IsReversal()
    requires ref == ReferenceOf(Base(db, e.work, tx), tx)
    ensures Sound(db, e.(phase := Seen(w, tx, ref)))
  {
    hide ReferenceOf, Base;
  }
}

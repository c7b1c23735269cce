/**
 Resolver executions that overlap. Without the guard that keeps executions of one row apart,
 one thing can go wrong and nothing else: an execution that read its row while it was parked
 and finds no retry row any more overwrites what the row has become.
 */
module Overlaps {
  import opened Wrappers
  import opened Apperr
  import opened DomainMoney
  import opened DomainWagering
  import opened DomainWallet
  import opened DomainEvent
  import opened Postgres
  import opened AppProcess
  import opened AppResolve
  import opened AppOpen
  import opened Invariants
  import opened Settlement
  import opened Openings
  import opened Runs
  import opened History
  import opened Replays
  import opened Conservation
  import opened Commits
  import opened Parking
  import opened EventLog
  import opened Locking
  import opened LockRefinement
  import opened Interleavings
  import Solo
  import Schedules

  // ----- what holds of an execution even so -----

  /** The row was parked when it was read first, and has only gone forward since. */
  ghost predicate ReadParked(db: Database, e: Execution) {
    && e.first.Some? && e.first.value.id == e.work.txId && e.first.value.status == PendingReference
    && e.first.value.referenceId.None? && e.first.value.playerId != NIL && e.first.value.walletId != NIL
    && e.work.txId != NIL && e.work.txId in db.txs && RowForward(e.first.value, db.txs[e.work.txId])
  }

  ghost predicate StillParked(db: Database, e: Execution, tx: WagerTx) {
    IsParked(db, e.work.txId) && tx == db.txs[e.work.txId]
  }

  predicate RetrySeen(e: Execution) {
    e.retry.Some? && e.retry.value.attempts >= 0
  }

  /** Attempts may be stale, and an execution may be orphaned, but only of a terminal row. */
  ghost predicate ResolverSound(db: Database, e: Execution) {
    && e.work.Resolver? && e.work.s.Usable() && (e.phase.Fresh? || ReadParked(db, e))
    && match e.phase
       case Fresh | Unclaimed => true
       case Orphaned => db.txs[e.work.txId].status.IsTerminal()
       case Waiting => RetrySeen(e)
       case Holding(w) => RetrySeen(e) && WalletRead(db, e, w)
       case Entered(w, tx) => RetrySeen(e) && WalletRead(db, e, w) && StillParked(db, e, tx)
       case Seen(w, tx, ref) =>
         RetrySeen(e) && WalletRead(db, e, w) && StillParked(db, e, tx) && ReferenceRead(db, tx, w.id, ref)
       case Decided(w, tx, res) =>
         RetrySeen(e) && WalletRead(db, e, w) && StillParked(db, e, tx) && DecisionStands(db, e, w, tx, res)
  }

  ghost predicate LooselySound(db: Database, e: Execution) {
    if e.work.Request? then Sound(db, e) else ResolverSound(db, e)
  }

  /** Two resolvers are kept apart by the wallet lock only. */
  ghost predicate Separate(e: Execution, f: Execution) {
    if e.work.Resolver? && f.work.Resolver? then e.phase.Locks() && f.phase.Locks() ==> e.WalletId() != f.WalletId()
    else TellApart(e, f)
  }

  ghost predicate AllSeparate(running: map<nat, Execution>) {
    forall p, q | p in running && q in running && p != q :: Separate(running[p], running[q])
  }

  ghost predicate AllLooselySound(db: Database, running: map<nat, Execution>) {
    forall p | p in running :: LooselySound(db, running[p])
  }

  ghost predicate LooseInv(st: State) {
    Inv(st.db, {}) && st.refused == 0 && AllLooselySound(st.db, st.running) && AllSeparate(st.running)
  }

  /** Rows and logs only go forward; attempts may be counted twice or not at all. */
  ghost predicate Onward(db: Database, d: Database) {
    RowsForward(db, d) && LogsForward(db, d)
  }

  // ----- a commit leaves the others sound -----

  lemma RowForwardTransitive(a: WagerTx, b: WagerTx, c: WagerTx)
    requires RowForward(a, b) && RowForward(b, c)
    ensures RowForward(a, c)
  {
  }

  /** While it holds its row's wallet, the row is not the one committed. */
  lemma OtherRow(db: Database, d: Database, own: Id, v: Id, f: Execution)
    requires ReadParked(db, f) && f.work.Resolver? && RowsBeside(db, d, own, v) && f.WalletId() != v
    ensures f.work.txId != own && f.work.txId in d.txs && d.txs[f.work.txId] == db.txs[f.work.txId]
  {
  }

  lemma ReadParkedStays(db: Database, d: Database, f: Execution)
    requires ReadParked(db, f) && RowsForward(db, d)
    ensures ReadParked(d, f)
    ensures db.txs[f.work.txId].status.IsTerminal() ==> d.txs[f.work.txId].status.IsTerminal()
  {
    var id := f.work.txId;
    assert RowForward(db.txs[id], d.txs[id]);
    RowForwardTransitive(f.first.value, db.txs[id], d.txs[id]);
  }

  lemma ResolverStays(db: Database, d: Database, own: Id, v: Id, f: Execution)
    requires Inv(db, {}) && Inv(d, {}) && RowsForward(db, d) && ResolverSound(db, f) && Beside(db, d, own, v)
    requires f.phase.Locks() ==> f.WalletId() != v
    ensures ResolverSound(d, f)
  {
    hide Inv, RowsForward, Beside, ReadParked, WalletRead, ReferenceRead, DecisionStands;
    InvKeys(db, {});
    InvKeys(d, {});
    if !f.phase.Fresh? {
      ReadParkedStays(db, d, f);
    }
    if f.phase.Locks() {
      OtherRowBeside(db, d, own, v, f);
      WalletStays(db, d, own, v, f, f.phase.w);
      match f.phase {
        case Seen(w, tx, ref) => ReferenceStays(db, d, own, v, f, w, tx, ref);
        case Decided(w, tx, res) =>
          ParkedFacts(db, f, w, tx);
          DecisionKept(db, d, own, v, f, w, tx, res);
        case _ =>
      }
    }
  }

  lemma OtherRowBeside(db: Database, d: Database, own: Id, v: Id, f: Execution)
    requires ReadParked(db, f) && f.work.Resolver? && Beside(db, d, own, v) && f.WalletId() != v
    ensures f.work.txId in d.txs && f.work.txId in db.txs && d.txs[f.work.txId] == db.txs[f.work.txId]
  {
    hide WalletsBeside, KeysBeside;
    OtherRow(db, d, own, v, f);
  }

  /** What is known of a row read again under the lock. */
  lemma ParkedFacts(db: Database, e: Execution, w: Wallet, tx: WagerTx)
    requires Inv(db, {}) && e.work.Resolver? && ReadParked(db, e) && WalletRead(db, e, w) && StillParked(db, e, tx)
    ensures tx.id == e.work.txId && tx.walletId == w.id == e.WalletId() && w.id in db.wallets && db.wallets[w.id] == w
    ensures Owned(w, tx) && tx.IsReversal() && Landable(db, tx, {}) && tx.id in db.retries
    ensures Known(db, e) || !e.work.s.Usable()
  {
    hide Inv;
    ParkedRow(db, e.work.txId);
  }

  // ----- commits -----

  /** A resolver's decision with what it read of its retry row. */
  lemma LooseNow(db: Database, e: Execution, w: Wallet, tx: WagerTx)
    requires e.work.Resolver? && e.retry.Some?
    ensures Now(db, e, w, tx) == ResolutionFor(db, tx, e.retry.value, w, e.work.max, e.work.s)
    ensures Decision(e, w, tx, None, false) ==
      if Exhausted(e.retry.value, e.work.max, e.work.s.now) then Final(Refused(ReferenceNotFound)) else Again
  {
  }

  ghost predicate LooseCommit(db: Database, e: Execution, w: Wallet, tx: WagerTx, res: Resolution) {
    match Written(db, e, w, tx, res)
    case Failure(_) => false
    case Success(d) => Inv(d, {}) && Onward(db, d) && Beside(db, d, e.work.txId, w.id)
  }

  /** Whatever it read of its retry row, its commit keeps the invariant and takes nothing settled back. */
  lemma ResolverCommitsAnyhow(db: Database, e: Execution, w: Wallet, tx: WagerTx, res: Resolution)
    requires Inv(db, {}) && ResolverSound(db, e) && e.phase == Decided(w, tx, res)
    ensures LooseCommit(db, e, w, tx, res)
  {
    hide Inv, Justified, Outcome, Write, Beside, Foreign, ReferenceOf, ResolutionFor, ReadParked, WalletRead;
    hide Now, Decision, Exhausted, Rescheduled, RowsForward, LogsForward;
    var s := e.work.s;
    ParkedFacts(db, e, w, tx);
    InvKeys(db, {});
    LooseNow(db, e, w, tx);
    ResolutionIsJustified(db, tx, e.retry.value, w, e.work.max, s);
    match res {
      case Again => AgainAnyhow(db, e, w, tx);
      case Final(l) =>
        if res != Now(db, e, w, tx) {
          RefusedIsJustified(db, tx, w, ReferenceNotFound, s);
        }
        LandingKeeps(db, tx, w, l, s, {});
        ParkedRowIsFaithful(db, tx, w, l, s);
        EvolvesIsOnward(db, Outcome(db, tx, w, l, s));
        ParkedBeside(db, tx, w, l, s);
    }
  }

  lemma AgainAnyhow(db: Database, e: Execution, w: Wallet, tx: WagerTx)
    requires Inv(db, {}) && e.work.Resolver? && RetrySeen(e) && tx.id == e.work.txId && tx.walletId == w.id
    requires tx.id in db.retries && Landable(db, tx, {}) && w.id in db.wallets
    ensures LooseCommit(db, e, w, tx, Again)
  {
    hide Inv, Beside, LogsForward;
    var retry := Rescheduled(e.retry.value, e.work.s.now);
    AgainBeside(db, tx, retry);
    RetriesKeep(db, db.retries[tx.id := retry]);
    SameLogs(db, db.(retries := db.retries[tx.id := retry]));
  }

  lemma EvolvesIsOnward(db: Database, d: Database)
    requires Faithful(db, d)
    ensures Inv(d, {}) && Onward(db, d)
  {
    hide Inv, Conserved, Hashed, RowsForward, LogsForward;
  }

  // ----- statements before the commit -----

  /** Nothing but this execution's own progress changes. */
  ghost predicate OnlyProgress(st: State, after: State, pid: nat) {
    && after.db == st.db && after.refused == st.refused
    && (|| after.running == st.running - {pid}
        || (pid in after.running && after.running == st.running[pid := after.running[pid]]))
  }

  lemma Progresses(st: State, pid: nat)
    requires Possible(st, Advance(pid)) && !st.running[pid].phase.Decided? && !st.running[pid].phase.Orphaned?
    ensures OnlyProgress(st, Advanced(st, pid), pid)
  {
    hide Prepare, Locked, Claimed, Decision, ReferenceOf, Base, PendingOf;
  }

  /** It takes a lock, or keys, only when nobody else has them. */
  lemma StaysSeparate(st: State, pid: nat, q: nat)
    requires Possible(st, Advance(pid)) && !st.running[pid].phase.Decided? && !st.running[pid].phase.Orphaned?
    requires q in st.running && q != pid && Separate(st.running[pid], st.running[q])
    requires st.running[pid].phase.Fresh? || st.running[pid].work.Request? || st.running[pid].first.Some?
    ensures pid in Advanced(st, pid).running ==>
      Separate(Advanced(st, pid).running[pid], st.running[q]) && Separate(st.running[q], Advanced(st, pid).running[pid])
  {
    hide Prepare, Decision, ReferenceOf, Base, PendingOf;
  }

  lemma RequestStaysSound(st: State, pid: nat)
    requires Inv(st.db, {}) && Possible(st, Advance(pid)) && Sound(st.db, st.running[pid]) && st.running[pid].work.Request?
    requires !st.running[pid].phase.Decided?
    ensures pid in Advanced(st, pid).running ==> Sound(st.db, Advanced(st, pid).running[pid])
  {
    hide Inv, Locked, Claimed, Decision, Base, ReferenceOf;
    var e := st.running[pid];
    match e.phase {
      case Fresh => FirstReadSound(st, pid);
      case Unclaimed => SecondReadSound(st, pid);
      case Waiting => LockSound(st, pid);
      case Holding(w) => EnterSound(st, pid, w);
      case Entered(w, tx) => LookUpSound(st, pid, w, tx);
      case Seen(w, tx, ref) => DecideSound(st, pid, w, tx, ref);
    }
  }

  /** The first two reads; a row without a retry row is terminal by then. */
  lemma ResolverReads(st: State, pid: nat)
    requires Inv(st.db, {}) && Possible(st, Advance(pid)) && ResolverSound(st.db, st.running[pid])
    requires st.running[pid].phase.Fresh? || st.running[pid].phase.Unclaimed?
    ensures pid in Advanced(st, pid).running ==> ResolverSound(st.db, Advanced(st, pid).running[pid])
  {
    hide Inv, Prepare, IsParked;
    RowOrRetry(st.db, st.running[pid].work.txId);
  }

  lemma RowOrRetry(db: Database, id: Id)
    requires Inv(db, {})
    ensures id in db.retries ==> id in db.txs && db.retries[id].attempts >= 0
    ensures id in db.txs ==> db.txs[id].status == PendingReference || db.txs[id].status.IsTerminal()
    ensures id in db.txs && db.txs[id].status == PendingReference ==>
      && id in db.retries && db.txs[id].id == id && id != NIL
      && db.txs[id].referenceId.None? && db.txs[id].playerId != NIL && db.txs[id].walletId != NIL
  {
    hide Inv, Indexed, Landable;
    if id in db.retries {
      RetriesAreRows(db, id);
    }
    if id in db.txs {
      RowStatus(db, id);
      if db.txs[id].status == PendingReference {
        ParkedRow(db, id);
        Unlanded(db, db.txs[id], db.wallets[db.txs[id].walletId], {});
      }
    }
  }

  lemma RetriesAreRows(db: Database, id: Id)
    requires Inv(db, {}) && id in db.retries
    ensures id in db.txs
  {
    hide Indexed, Shapes, Reversals, Chains, Booked, Announced;
  }

  /** The lock, the row under it, the reference and the decision. */
  lemma ResolverGoesOn(st: State, pid: nat)
    requires Inv(st.db, {}) && Possible(st, Advance(pid)) && ResolverSound(st.db, st.running[pid])
    requires var p := st.running[pid].phase; p.Waiting? || p.Holding? || p.Entered? || p.Seen?
    ensures pid in Advanced(st, pid).running ==> ResolverSound(st.db, Advanced(st, pid).running[pid])
  {
    hide Inv, Locked, Decision, ReferenceOf, Identities, Indexed;
    InvKeys(st.db, {});
    var e := st.running[pid];
    match e.phase {
      case Seen(w, tx, ref) =>
        ParkedFacts(st.db, e, w, tx);
        DecisionMade(st.db, e, w, tx, ref);
        SameDecisions(st.db, e, Decided(w, tx, Decision(e, w, tx, ref, AlreadyReversed(st.db, ref))), w, tx, None, false);
      case Entered(w, tx) => hide Now, DecisionStands;
      case _ => hide Now, DecisionStands, ReferenceRead;
    }
  }

  // ----- settled rows -----

  /** A terminal row, or what it has told, is no longer what it was. */
  ghost predicate TouchesSettled(db: Database, d: Database) {
    exists id | id in db.txs && db.txs[id].status.IsTerminal() :: Differs(db, d, id)
  }

  ghost predicate Differs(db: Database, d: Database, id: Id)
    requires id in db.txs
  {
    id !in d.txs || d.txs[id] != db.txs[id] || d.Events(id) != db.Events(id)
  }

  /** Going onward within the invariant leaves terminal rows and their events as they are. */
  lemma OnwardLeavesSettled(db: Database, d: Database)
    requires Inv(db, {}) && Inv(d, {}) && Onward(db, d)
    ensures !TouchesSettled(db, d)
  {
    hide Inv, AnnouncedLast, ProcessedData, RejectedData, PendingData;
    forall id | id in db.txs && db.txs[id].status.IsTerminal()
      ensures !Differs(db, d, id)
    {
      assert RowForward(db.txs[id], d.txs[id]);
      RowStatus(db, id);
      TransactionEvents(db, id);
      TransactionEvents(d, id);
      assert db.Events(id) <= d.Events(id);
      SettledOnce(db.Events(id), d.Events(id), db.txs[id]);
    }
  }

  /** Nothing follows a final event. */
  lemma SettledOnce(before: seq<Envelope>, after: seq<Envelope>, t: WagerTx)
    requires t.status == Processed || t.status == Rejected
    requires 1 <= |before| && |after| <= 2 && before <= after
    requires t.status == Processed ==>
      t.resultBalance.Some? && AnnouncedLast(before, ProcessedData(t, Money(t.resultBalance.value, t.amount.currency)))
    requires t.status == Rejected ==> AnnouncedLast(before, RejectedData(t))
    requires |after| == 2 ==> after[0].data == PendingData(t)
    ensures after == before
  {
    assert after[0] == before[0];
  }

  // ----- every action but one keeps the invariant -----

  /** A commit for its row and its wallet leaves everyone else sound. */
  lemma OthersStayLoose(db: Database, d: Database, e: Execution, f: Execution)
    requires Inv(db, {}) && Inv(d, {}) && RowsForward(db, d) && Known(db, e) && e.phase.Decided?
    requires LooselySound(db, f) && Separate(e, f)
    requires Beside(db, d, e.work.txId, e.WalletId()) && e.WalletId() in db.wallets
    requires e.work.Request? ==>
      && e.work.txId in d.txs && d.txs[e.work.txId].providerId == e.work.input.providerId
      && d.txs[e.work.txId].externalId == e.work.input.externalId
      && d.txs[e.work.txId].idempotencyKey == e.work.input.idempotencyKey
    ensures LooselySound(d, f)
  {
    hide Inv, Beside, ToldApart, Sound, ResolverSound, RowsForward, Known, Prepare;
    if f.work.Request? {
      KnownOf(db, f);
      OthersToldApart(db, d, e, f);
      SoundStays(db, d, e.work.txId, e.WalletId(), f);
    } else {
      ResolverStays(db, d, e.work.txId, e.WalletId(), f);
    }
  }

  lemma SeparateFrom(running: map<nat, Execution>, p: nat, q: nat)
    requires AllSeparate(running) && p in running && q in running && p != q
    ensures Separate(running[p], running[q])
  {
  }

  lemma FewerSeparate(running: map<nat, Execution>, pid: nat)
    requires AllSeparate(running)
    ensures AllSeparate(running - {pid})
  {
    hide Separate;
  }

  lemma MoreSeparate(running: map<nat, Execution>, pid: nat, f: Execution)
    requires AllSeparate(running)
    requires forall q | q in running && q != pid :: Separate(f, running[q]) && Separate(running[q], f)
    ensures AllSeparate(running[pid := f])
  {
    hide Separate;
  }

  lemma AdvanceKeepsLoosely(st: State, pid: nat)
    requires LooseInv(st) && Possible(st, Advance(pid))
    requires !st.running[pid].phase.Decided? && !st.running[pid].phase.Orphaned?
    ensures LooseInv(Advanced(st, pid)) && Advanced(st, pid).db == st.db
  {
    hide Inv, Advanced, Prepare, LooselySound, Separate;
    var after := Advanced(st, pid);
    Progresses(st, pid);
    StaysLooselySound(st, pid);
    if pid in after.running {
      forall q | q in st.running && q != pid
        ensures Separate(after.running[pid], st.running[q]) && Separate(st.running[q], after.running[pid])
      {
        SeparateFrom(st.running, pid, q);
        HasFirst(st.db, st.running[pid]);
        StaysSeparate(st, pid, q);
      }
      MoreSeparate(st.running, pid, after.running[pid]);
    } else {
      FewerSeparate(st.running, pid);
    }
  }

  lemma HasFirst(db: Database, e: Execution)
    requires LooselySound(db, e)
    ensures e.phase.Fresh? || e.work.Request? || e.first.Some?
  {
  }

  lemma StaysLooselySound(st: State, pid: nat)
    requires Inv(st.db, {}) && Possible(st, Advance(pid)) && LooselySound(st.db, st.running[pid])
    requires !st.running[pid].phase.Decided? && !st.running[pid].phase.Orphaned?
    ensures pid in Advanced(st, pid).running ==>
      Advanced(st, pid).running[pid].work == st.running[pid].work && LooselySound(st.db, Advanced(st, pid).running[pid])
  {
    hide Inv, Advanced, Prepare, Sound, ResolverSound;
    Solo.SameWork(st, pid);
    if st.running[pid].work.Request? {
      RequestStaysSound(st, pid);
    } else if st.running[pid].phase.Fresh? || st.running[pid].phase.Unclaimed? {
      ResolverReads(st, pid);
    } else {
      ResolverGoesOn(st, pid);
    }
  }

  /** A commit, of either kind. */
  lemma CommitsLoosely(db: Database, e: Execution, w: Wallet, tx: WagerTx, res: Resolution)
    requires Inv(db, {}) && LooselySound(db, e) && e.phase == Decided(w, tx, res)
    ensures LooseCommit(db, e, w, tx, res) && Known(db, e) && w.id == e.WalletId() && w.id in db.wallets
    ensures e.work.Request? ==>
      var d := Written(db, e, w, tx, res).value;
      && e.work.txId in d.txs && d.txs[e.work.txId].providerId == e.work.input.providerId
      && d.txs[e.work.txId].externalId == e.work.input.externalId
      && d.txs[e.work.txId].idempotencyKey == e.work.input.idempotencyKey
  {
    if e.work.Request? {
      hide Inv, Sound, Written, Faithful, Beside, Onward, Redo, Known;
      WalletKnown(db, e, w, tx, res);
      RequestCommits(db, e, w, tx, res);
      EvolvesIsOnward(db, Written(db, e, w, tx, res).value);
    } else {
      hide Inv, ResolverSound, LooseCommit, Known;
      ResolverKnown(db, e, w, tx, res);
      ResolverCommitsAnyhow(db, e, w, tx, res);
    }
  }

  lemma ResolverKnown(db: Database, e: Execution, w: Wallet, tx: WagerTx, res: Resolution)
    requires Inv(db, {}) && ResolverSound(db, e) && e.phase == Decided(w, tx, res)
    ensures Known(db, e) && w.id == e.WalletId() && w.id in db.wallets
  {
    hide Inv, Known, DecisionStands, ReferenceRead;
    ParkedFacts(db, e, w, tx);
  }

  lemma WalletKnown(db: Database, e: Execution, w: Wallet, tx: WagerTx, res: Resolution)
    requires Sound(db, e) && e.phase == Decided(w, tx, res)
    ensures Known(db, e) && w.id == e.WalletId() && w.id in db.wallets
  {
  }

  lemma CommitKeepsLoosely(st: State, pid: nat)
    requires LooseInv(st) && Possible(st, Advance(pid)) && st.running[pid].phase.Decided?
    ensures LooseInv(Advanced(st, pid)) && Onward(st.db, Advanced(st, pid).db)
  {
    hide Inv, Prepare, LooselySound, Separate, Written, EntryOf, RowsForward, LogsForward, Beside, Known;
    var e := st.running[pid];
    var w, tx, res := e.phase.w, e.phase.tx, e.phase.res;
    CommitsLoosely(st.db, e, w, tx, res);
    var d := Written(st.db, e, w, tx, res).value;
    forall q | q in st.running && q != pid
      ensures LooselySound(d, st.running[q])
    {
      SeparateFrom(st.running, pid, q);
      OthersStayLoose(st.db, d, e, st.running[q]);
    }
    FewerSeparate(st.running, pid);
  }

  lemma AsideStaysLoose(st: State, step: Step, f: Execution)
    requires Inv(st.db, {}) && Possible(st, Aside(step)) && LooselySound(st.db, f) && f in st.running.Values
    ensures LooselySound(Next(st.db, step), f)
  {
    hide Inv, Sound, ResolverSound, Next, RowsForward, Beside, UnusedEntry;
    var d := Next(st.db, step);
    StepKeeps(st.db, step);
    StepForward(st.db, step);
    EvolvesRows(st.db, d);
    if f.work.Request? {
      match step {
        case OpenFor(o, s) => OpenStaysSound(st.db, o, s, f);
        case Lease(ids, _, lockUntil) =>
          LeaseIs(st.db, step);
          LeaseStaysSound(st.db, ids, lockUntil, f);
      }
    } else {
      match step {
        case OpenFor(o, s) => ResolverBesideOpening(st.db, o, s, f);
        case Lease(ids, _, lockUntil) =>
          LeaseIs(st.db, step);
          RowsAreNoWallets(st.db);
          LeaseBeside(st.db, ids, lockUntil);
          if f.phase.Locks() {
            LockedWallet(st.db, f);
          }
          ResolverStays(st.db, d, NIL, NIL, f);
      }
    }
  }

  lemma EvolvesRows(db: Database, d: Database)
    requires Evolves(db, d)
    ensures Onward(db, d) && RowsForward(db, d)
  {
    hide RowsForward, LogsForward, WalletsForward, RetriesForward, IndexesForward;
  }

  lemma LockedWallet(db: Database, f: Execution)
    requires ResolverSound(db, f) && f.phase.Locks()
    ensures f.WalletId() in db.wallets
  {
  }

  lemma ResolverBesideOpening(db: Database, o: OpenInput, s: Stamp, f: Execution)
    requires Inv(db, {}) && Admissible(db, OpenFor(o, s)) && ResolverSound(db, f)
    requires Inv(Next(db, OpenFor(o, s)), {}) && RowsForward(db, Next(db, OpenFor(o, s)))
    ensures ResolverSound(Next(db, OpenFor(o, s)), f)
  {
    hide Inv, ResolverSound, RowsForward, Beside, Open;
    OpenBeside(db, o, s);
    if Open(db, o, s).Success? {
      if f.phase.Locks() {
        LockedWallet(db, f);
      }
      ResolverStays(db, Next(db, OpenFor(o, s)), o.txId, o.walletId, f);
    }
  }

  lemma AsideKeepsLoosely(st: State, step: Step)
    requires LooseInv(st) && Possible(st, Aside(step))
    ensures LooseInv(After(st, Aside(step))) && Onward(st.db, Next(st.db, step))
  {
    hide Inv, LooselySound, AllSeparate, Next, RowsForward, LogsForward;
    StepKeeps(st.db, step);
    StepForward(st.db, step);
    EvolvesRows(st.db, Next(st.db, step));
    forall p | p in st.running
      ensures LooselySound(Next(st.db, step), st.running[p])
    {
      AsideStaysLoose(st, step, st.running[p]);
    }
  }

  lemma ArriveKeepsLoosely(st: State, pid: nat, work: Work)
    requires LooseInv(st) && Possible(st, Arrive(pid, work))
    ensures LooseInv(After(st, Arrive(pid, work)))
  {
    hide Inv, Prepare, UnusedEntry;
    MoreSeparate(st.running, pid, Execution(work, None, None, 0, Fresh));
  }

  lemma DieKeepsLoosely(st: State, pid: nat)
    requires LooseInv(st)
    ensures LooseInv(End(st, pid))
  {
    hide Inv, LooselySound, Separate;
  }

  // ----- the one that does not -----

  /** An execution without a retry row is about to reject a row that is settled by now. */
  ghost predicate Strikes(st: State, a: Action) {
    && a.Advance? && a.pid in st.running
    && var e := st.running[a.pid];
       && e.phase.Orphaned? && e.WalletId() in st.db.wallets
       && e.work.txId in st.db.txs && st.db.txs[e.work.txId].status.IsTerminal()
  }

  /** What it does to the row, and to nothing else but the row's events and its entry in the reversal index. */
  lemma StrikeOverwrites(st: State, pid: nat)
    requires LooseInv(st) && Strikes(st, Advance(pid)) && Possible(st, Advance(pid))
    ensures var e, d := st.running[pid], Advanced(st, pid).db;
      var id := e.work.txId;
      && d == st.db.(txs := d.txs, reversalOf := d.reversalOf, outbox := d.outbox, retries := d.retries)
      && d.txs == st.db.txs[id := st.db.txs[id].(
           status := Rejected, failureCode := Some(ReferenceNotFound), referenceId := None,
           resultBalance := Some(st.db.wallets[e.WalletId()].balance.amountMinor), updatedAt := e.work.s.now)]
      && d.reversalOf == st.db.IndexWithout(id) && d.retries == st.db.retries - {id}
      && |d.Events(id)| == |st.db.Events(id)| + 1
  {
    hide LooseInv, RejectUnlocked, Prepare;
    ReadWhileParked(st, pid);
    RejectsRow(st, pid, st.running[pid]);
  }

  lemma ReadWhileParked(st: State, pid: nat)
    requires LooseInv(st) && pid in st.running && st.running[pid].phase.Orphaned?
    ensures st.running[pid].work.Resolver? && ReadParked(st.db, st.running[pid])
  {
    hide Inv, AllSeparate, ReadParked;
    assert LooselySound(st.db, st.running[pid]);
  }

  lemma RejectsRow(st: State, pid: nat, e: Execution)
    requires e.work.Resolver? && ReadParked(st.db, e) && e.WalletId() in st.db.wallets
    ensures var d, id := RejectUnlocked(st, pid, e).db, e.work.txId;
      && d == st.db.(txs := d.txs, reversalOf := d.reversalOf, outbox := d.outbox, retries := d.retries)
      && d.txs == st.db.txs[id := st.db.txs[id].(
           status := Rejected, failureCode := Some(ReferenceNotFound), referenceId := None,
           resultBalance := Some(st.db.wallets[e.WalletId()].balance.amountMinor), updatedAt := e.work.s.now)]
      && d.reversalOf == st.db.IndexWithout(id) && d.retries == st.db.retries - {id}
      && |d.Events(id)| == |st.db.Events(id)| + 1
  {
    hide RejectedData, Database.IndexWithout;
  }

  /** Whoever is orphaned is about to strike. */
  lemma OrphansStrike(st: State, pid: nat)
    requires LooseInv(st) && pid in st.running && st.running[pid].phase.Orphaned?
    ensures Strikes(st, Advance(pid))
  {
    hide Inv, AllSeparate;
    assert LooselySound(st.db, st.running[pid]);
    RowWallet(st.db, st.running[pid].work.txId);
  }

  lemma RowWallet(db: Database, id: Id)
    requires Inv(db, {}) && id in db.txs
    ensures db.txs[id].walletId in db.wallets
  {
    hide Indexed, Shapes, Reversals, Chains, Booked, Announced;
  }

  /**
   The exact condition. One action of the machine changes a terminal row, or what it has
   told, if and only if it advances an execution in the branch without a retry row whose
   wallet exists and whose row, parked when it was read first, has become terminal since.
   Every other action keeps the invariant and takes nothing back.
   */
  lemma OnlyStrikesTouchSettled(st: State, a: Action)
    requires LooseInv(st) && Possible(st, a)
    ensures TouchesSettled(st.db, After(st, a).db) <==> Strikes(st, a)
    ensures !Strikes(st, a) ==> LooseInv(After(st, a)) && Onward(st.db, After(st, a).db)
  {
    hide TouchesSettled, Strikes, Possible;
    if Strikes(st, a) {
      StrikeTouches(st, a);
    } else {
      OthersKeepLoosely(st, a);
      LooseIsInv(st);
      LooseIsInv(After(st, a));
      OnwardLeavesSettled(st.db, After(st, a).db);
    }
  }

  lemma LooseIsInv(st: State)
    requires LooseInv(st)
    ensures Inv(st.db, {})
  {
    hide Inv, AllLooselySound, AllSeparate;
  }

  lemma StrikeTouches(st: State, a: Action)
    requires LooseInv(st) && Possible(st, a) && Strikes(st, a)
    ensures TouchesSettled(st.db, After(st, a).db)
  {
    hide LooseInv, Advanced;
    StrikeOverwrites(st, a.pid);
    assert Differs(st.db, After(st, a).db, st.running[a.pid].work.txId);
  }

  lemma OthersKeepLoosely(st: State, a: Action)
    requires LooseInv(st) && Possible(st, a) && !Strikes(st, a)
    ensures LooseInv(After(st, a)) && Onward(st.db, After(st, a).db)
  {
    hide LooseInv, Onward, Prepare, Strikes, Advanced, Next, UnusedEntry;
    StaysOnward(st.db);
    match a {
      case Arrive(pid, work) => ArriveKeepsLoosely(st, pid, work);
      case Die(pid) => DieKeepsLoosely(st, pid);
      case Aside(step) => AsideKeepsLoosely(st, step);
      case Advance(pid) =>
        if st.running[pid].phase.Orphaned? {
          OrphansStrike(st, pid);
        } else if st.running[pid].phase.Decided? {
          CommitKeepsLoosely(st, pid);
        } else {
          AdvanceKeepsLoosely(st, pid);
        }
    }
  }

  lemma StaysOnward(db: Database)
    ensures Onward(db, db)
  {
  }

  lemma OnwardTransitive(a: Database, b: Database, c: Database)
    requires Onward(a, b) && Onward(b, c)
    ensures Onward(a, c)
  {
    forall id | id in a.txs
      ensures id in c.txs && RowForward(a.txs[id], c.txs[id])
    {
      RowForwardTransitive(a.txs[id], b.txs[id], c.txs[id]);
    }
    forall id: Id
      ensures a.Ledger(id) <= c.Ledger(id) && a.Events(id) <= c.Events(id)
    {
      assert a.Ledger(id) <= b.Ledger(id) <= c.Ledger(id);
      assert a.Events(id) <= b.Events(id) <= c.Events(id);
    }
  }

  // ----- runs without the guard -----

  ghost predicate PossibleRun(st: State, actions: seq<Action>)
    decreases |actions|
  {
    actions != [] ==> Possible(st, actions[0]) && PossibleRun(After(st, actions[0]), actions[1..])
  }

  ghost function Happened(st: State, actions: seq<Action>): State
    requires PossibleRun(st, actions)
    decreases |actions|
  {
    if actions == [] then st else Happened(After(st, actions[0]), actions[1..])
  }

  ghost predicate NeverStruck(st: State, actions: seq<Action>)
    requires PossibleRun(st, actions)
    decreases |actions|
  {
    actions != [] ==> !Strikes(st, actions[0]) && NeverStruck(After(st, actions[0]), actions[1..])
  }

  lemma {:induction false} HappenedConcat(st: State, a: seq<Action>, b: seq<Action>)
    ensures PossibleRun(st, a + b) <==> PossibleRun(st, a) && PossibleRun(Happened(st, a), b)
    ensures PossibleRun(st, a + b) ==> Happened(st, a + b) == Happened(Happened(st, a), b)
    decreases |a|
  {
    hide Possible, After;
    if a == [] {
      assert a + b == b;
    } else {
      assert (a + b)[0] == a[0] && (a + b)[1..] == a[1..] + b;
      if Possible(st, a[0]) {
        HappenedConcat(After(st, a[0]), a[1..], b);
      }
    }
  }

  /** The guarded schedules are among them. */
  lemma {:induction false} EnabledIsPossible(st: State, actions: seq<Action>)
    requires EnabledRun(st, actions)
    ensures PossibleRun(st, actions) && Happened(st, actions) == Ran(st, actions)
    decreases |actions|
  {
    hide Possible, After, Alone;
    if actions != [] {
      EnabledIsPossible(After(st, actions[0]), actions[1..]);
    }
  }

  /** As long as nobody strikes, overlapping executions take nothing settled back. */
  lemma {:induction false} SafeUntilStruck(st: State, actions: seq<Action>)
    requires LooseInv(st) && PossibleRun(st, actions) && NeverStruck(st, actions)
    ensures LooseInv(Happened(st, actions)) && Onward(st.db, Happened(st, actions).db)
    ensures !TouchesSettled(st.db, Happened(st, actions).db)
    decreases |actions|
  {
    hide Possible, After, LooseInv, Onward, Strikes, TouchesSettled;
    var last := Happened(st, actions);
    if actions == [] {
      StaysOnward(st.db);
    } else {
      OnlyStrikesTouchSettled(st, actions[0]);
      SafeUntilStruck(After(st, actions[0]), actions[1..]);
      OnwardTransitive(st.db, After(st, actions[0]).db, last.db);
    }
    LooseIsInv(st);
    LooseIsInv(last);
    OnwardLeavesSettled(st.db, last.db);
  }

  lemma StartIsLoose(db: Database)
    requires Inv(db, {})
    ensures LooseInv(Start(db))
  {
    hide Inv;
  }

  // ----- a schedule that strikes -----

  /** The late execution has read its row and stands still. */
  function Paused(id: Id, max: int, s: Stamp, row: WagerTx): Execution {
    Execution(Resolver(id, max, s), Some(row), None, 0, Unclaimed)
  }

  lemma OneMore(st: State, a: Action, rest: seq<Action>)
    requires Possible(st, a) && PossibleRun(After(st, a), rest)
    ensures PossibleRun(st, [a] + rest) && Happened(st, [a] + rest) == Happened(After(st, a), rest)
  {
    hide Possible, After;
    assert ([a] + rest)[0] == a && ([a] + rest)[1..] == rest;
  }

  /** Two executions of one row, begun one after the other. */
  lemma BothArrive(st: State, id: Id, max: int, s1: Stamp, s2: Stamp) returns (actions: seq<Action>)
    requires st.running == map[] && IsParked(st.db, id) && s1.Usable() && s2.Usable()
    requires UnusedEntry(st.db, s1.ids.entry) && UnusedEntry(st.db, s2.ids.entry) && s1.ids.entry != s2.ids.entry
    ensures PossibleRun(st, actions)
    ensures Happened(st, actions) ==
      Put(Put(st, 1, Paused(id, max, s1, st.db.txs[id])), 2, Solo.Starting(Resolver(id, max, s2)))
  {
    hide UnusedEntry;
    var a, b, c := Arrive(1, Resolver(id, max, s1)), Advance(1), Arrive(2, Resolver(id, max, s2));
    var paused := Put(st, 1, Paused(id, max, s1, st.db.txs[id]));
    assert After(After(st, a), b) == paused;
    assert Possible(paused, c);
    hide Possible, After;
    OneMore(paused, c, []);
    OneMore(After(st, a), b, [c] + []);
    OneMore(st, a, [b] + ([c] + []));
    actions := [a] + ([b] + ([c] + []));
  }

  /** The late execution finds no retry row, and rejects what it read. */
  lemma LateStrike(st: State, pid: nat, id: Id, max: int, s: Stamp, row: WagerTx) returns (actions: seq<Action>)
    requires Inv(st.db, {}) && pid in st.running && st.running[pid] == Paused(id, max, s, row) && s.Usable()
    requires row.id == id && row.status == PendingReference && row.walletId in st.db.wallets
    requires id in st.db.txs && id !in st.db.retries && st.db.txs[id].status == Processed && st.db.txs[id].IsReversal()
    ensures PossibleRun(st, actions)
    ensures var d := Happened(st, actions).db;
      && id in d.txs && d.txs[id].status == Rejected && d.ledger == st.db.ledger
      && d.HasEntry(d.txs[id].walletId, id) && (forall r | r in d.reversalOf :: d.reversalOf[r] != id)
  {
    hide Inv, RejectUnlocked;
    var orphan := st.running[pid].(phase := Orphaned);
    var next := Put(st, pid, orphan);
    assert After(st, Advance(pid)) == next;
    UnlockedRejectOverwrites(next, pid, orphan, id);
    assert After(next, Advance(pid)) == RejectUnlocked(next, pid, orphan);
    assert Possible(st, Advance(pid)) && Possible(next, Advance(pid));
    hide After, Possible;
    OneMore(next, Advance(pid), []);
    OneMore(st, Advance(pid), [Advance(pid)] + []);
    actions := [Advance(pid)] + ([Advance(pid)] + []);
  }

  /** The row says REJECTED, its ledger line says it was paid, and the reversal index no longer knows it. */
  ghost predicate RejectedYetPaid(d: Database, id: Id) {
    && id in d.txs && d.txs[id].status == Rejected && d.HasEntry(d.txs[id].walletId, id)
    && forall r | r in d.reversalOf :: d.reversalOf[r] != id
  }

  ghost predicate Overwrites(st: State, actions: seq<Action>, id: Id, settled: Database) {
    && PossibleRun(st, actions)
    && RejectedYetPaid(Happened(st, actions).db, id) && Happened(st, actions).db.ledger == settled.ledger
  }

  /** One reads the row and stands still, a second one settles the row, the first goes on. */
  lemma OverlapSchedule(st: State, id: Id, max: int, s1: Stamp, s2: Stamp) returns (actions: seq<Action>)
    requires Inv(st.db, {}) && st.running == map[] && IsParked(st.db, id) && s1.Usable() && s2.Usable()
    requires UnusedEntry(st.db, s1.ids.entry) && UnusedEntry(st.db, s2.ids.entry) && s1.ids.entry != s2.ids.entry
    requires Resolve(st.db, id, max, s2).Success?
    requires var d := Resolve(st.db, id, max, s2).value; id in d.txs && d.txs[id].status == Processed
    ensures PossibleRun(st, actions)
    ensures RejectedYetPaid(Happened(st, actions).db, id)
    ensures Happened(st, actions).db.ledger == Resolve(st.db, id, max, s2).value.ledger
  {
    var row, work := st.db.txs[id], Resolver(id, max, s2);
    var first := Put(st, 1, Paused(id, max, s1, row));
    var both := Put(first, 2, Solo.Starting(work));
    var arrive := BothArrive(st, id, max, s1, s2);
    SettledByResolver(st.db, id, max, s2);
    var settle := SecondSettles(st, id, max, s1, s2);
    hide Inv, UnusedEntry, Resolve, PossibleRun, Happened;
    var strike := LateStrike(Happened(both, settle), 1, id, max, s1, row);
    HappenedConcat(both, settle, strike);
    HappenedConcat(st, arrive, settle + strike);
    actions := arrive + (settle + strike);
  }

  /**
   It does happen. From any committed state with a parked row that an execution would settle,
   some schedule of two overlapping executions ends with the settled reversal rejected.
   */
  lemma OverlapOverwrites(st: State, id: Id, max: int, s1: Stamp, s2: Stamp)
    requires Inv(st.db, {}) && st.running == map[] && IsParked(st.db, id) && s1.Usable() && s2.Usable()
    requires UnusedEntry(st.db, s1.ids.entry) && UnusedEntry(st.db, s2.ids.entry) && s1.ids.entry != s2.ids.entry
    requires Resolve(st.db, id, max, s2).Success?
    requires var d := Resolve(st.db, id, max, s2).value; id in d.txs && d.txs[id].status == Processed
    ensures exists actions: seq<Action> :: Overwrites(st, actions, id, Resolve(st.db, id, max, s2).value)
  {
    hide Inv, UnusedEntry, PossibleRun, Happened, RejectedYetPaid, Resolve;
    var actions := OverlapSchedule(st, id, max, s1, s2);
    assert Overwrites(st, actions, id, Resolve(st.db, id, max, s2).value);
  }

  /** While the first stands still the second settles the row. */
  lemma SecondSettles(st: State, id: Id, max: int, s1: Stamp, s2: Stamp) returns (actions: seq<Action>)
    requires Inv(st.db, {}) && st.running == map[] && IsParked(st.db, id) && Resolve(st.db, id, max, s2).Success?
    ensures var paused := Paused(id, max, s1, st.db.txs[id]);
      var both := Put(Put(st, 1, paused), 2, Solo.Starting(Resolver(id, max, s2)));
      && PossibleRun(both, actions)
      && 1 in Happened(both, actions).running && Happened(both, actions).running[1] == paused
      && Happened(both, actions).db == Resolve(st.db, id, max, s2).value
  {
    var work := Resolver(id, max, s2);
    var first := Put(st, 1, Paused(id, max, s1, st.db.txs[id]));
    hide Inv, Resolve, PossibleRun, Happened, EnabledRun, Ran, Next, Solo.Unobstructed, Solo.Gone;
    PausedObstructsNobody(st, Paused(id, max, s1, st.db.txs[id]));
    NextOfResolver(st.db, id, max, s2);
    actions := Schedules.WorkEnds(first, 2, work);
    EnabledIsPossible(Put(first, 2, Solo.Starting(work)), actions);
    StillThere(first, Happened(Put(first, 2, Solo.Starting(work)), actions), Next(st.db, work.AsStep()));
  }

  lemma StillThere(st: State, after: State, d: Database)
    requires Solo.Gone(st, after, 2, d) && 1 in st.running
    ensures 1 in after.running && after.running[1] == st.running[1] && after.db == d
  {
  }

  lemma PausedObstructsNobody(st: State, paused: Execution)
    requires st.running == map[] && paused.phase.Unclaimed?
    ensures Solo.Unobstructed(Put(st, 1, paused), 2)
  {
  }

  lemma NextOfResolver(db: Database, id: Id, max: int, s: Stamp)
    requires Resolve(db, id, max, s).Success?
    ensures Next(db, Resolver(id, max, s).AsStep()) == Resolve(db, id, max, s).value
  {
    hide Resolve;
  }

  lemma SettledByResolver(db: Database, id: Id, max: int, s: Stamp)
    requires Inv(db, {}) && IsParked(db, id) && Resolve(db, id, max, s).Success?
    requires var d := Resolve(db, id, max, s).value; id in d.txs && d.txs[id].status == Processed
    ensures db.txs[id].id == id && db.txs[id].walletId in Resolve(db, id, max, s).value.wallets
    ensures var d := Resolve(db, id, max, s).value;
      Inv(d, {}) && id !in d.retries && d.txs[id].IsReversal()
  {
    hide Inv, Resolve;
    ParkedRow(db, id);
    ResolveKeeps(db, id, max, s);
    ResolveForward(db, id, max, s);
    RowStatus(Resolve(db, id, max, s).value, id);
    RowsForwardAt(db, Resolve(db, id, max, s).value, id);
    RowWallet(Resolve(db, id, max, s).value, id);
    hide Evolves;
  }
}

/**
 One execution of the interleaved machine that nobody obstructs does exactly its serial
 step; so every serial run is one of the machine's schedules.
 */
module Solo {
  import opened Wrappers
  import opened Apperr
  import opened DomainMoney
  import opened DomainWagering
  import opened DomainWallet
  import opened DomainEvent
  import opened Postgres
  import opened AppProcess
  import opened AppResolve
  import opened AppOpen
  import opened Invariants
  import opened Settlement
  import opened Runs
  import opened Parking
  import opened Locking
  import opened LockRefinement

  /** The request is prepared; nothing is asked of a resolver. */
  predicate Prepared(work: Work) {
    work.Request? ==> Prepare(work.input, work.txId, work.s.now).Success?
  }

  /** The execution advances until it is gone, at most n statements. */
  ghost function Finish(st: State, pid: nat, n: nat): State
    requires pid in st.running ==> Prepared(st.running[pid].work)
    decreases n
  {
    if n == 0 || pid !in st.running then st
    else
      SameWork(st, pid);
      Finish(Advanced(st, pid), pid, n - 1)
  }

  /** An execution keeps its work. */
  lemma SameWork(st: State, pid: nat)
    requires pid in st.running && Prepared(st.running[pid].work)
    ensures pid in Advanced(st, pid).running ==> Advanced(st, pid).running[pid].work == st.running[pid].work
  {
    hide Prepare, Written, Decision, EntryOf, ReferenceOf, Base, Write, Locked, Claimed;
  }

  /** Nobody else holds a lock or has keys in flight. */
  ghost predicate Unobstructed(st: State, pid: nat) {
    forall q | q in st.running && q != pid :: !st.running[q].phase.Locks()
  }

  lemma NotLocked(st: State, pid: nat, walletId: Id)
    requires Unobstructed(st, pid)
    ensures !Locked(st, pid, walletId)
  {
  }

  lemma NotClaimed(st: State, pid: nat, input: WagerInput)
    requires Unobstructed(st, pid)
    ensures !Claimed(st, pid, input)
  {
  }

  /** st with the execution at this point; the clock counts the locks taken. */
  function At(st: State, pid: nat, e: Execution, locks: nat): State {
    st.(running := st.running[pid := e], clock := st.clock + locks)
  }

  /** What is left when the execution is gone and d is committed. */
  ghost predicate Gone(st: State, after: State, pid: nat, d: Database) {
    pid !in after.running && after.running == st.running - {pid} && after.db == d && after.refused == st.refused
  }

  /** One statement first, the rest after. */
  lemma FinishStep(st: State, pid: nat, n: nat)
    requires pid in st.running && Prepared(st.running[pid].work) && n > 0
    ensures pid in Advanced(st, pid).running ==> Advanced(st, pid).running[pid].work == st.running[pid].work
    ensures Finish(st, pid, n) == Finish(Advanced(st, pid), pid, n - 1)
  {
    SameWork(st, pid);
  }

  /** Whoever is gone stays gone. */
  lemma FinishGone(st: State, pid: nat, n: nat)
    requires pid !in st.running
    ensures Finish(st, pid, n) == st
  {
  }

  /** A commit, or the end without one. */
  lemma CommitEnds(st: State, pid: nat, e: Execution, n: nat)
    requires e.phase.Decided? && Prepared(e.work) && n > 0
    requires Written(st.db, e, e.phase.w, e.phase.tx, e.phase.res).Success?
    ensures Gone(st, Finish(At(st, pid, e, 1), pid, n), pid,
                 Written(st.db, e, e.phase.w, e.phase.tx, e.phase.res).value)
  {
    hide Written, EntryOf, Prepare;
    FinishStep(At(st, pid, e, 1), pid, n);
    FinishGone(Advanced(At(st, pid, e, 1), pid), pid, n - 1);
    assert st.running[pid := e] - {pid} == st.running - {pid};
  }

  /** Ending where it stands leaves everything else. */
  lemma EndsHere(st: State, pid: nat, e: Execution, locks: nat, n: nat)
    requires Prepared(e.work) && n > 0 && Advanced(At(st, pid, e, locks), pid) == End(At(st, pid, e, locks), pid)
    ensures Gone(st, Finish(At(st, pid, e, locks), pid, n), pid, st.db)
  {
    hide Advanced, Prepare;
    FinishStep(At(st, pid, e, locks), pid, n);
    FinishGone(End(At(st, pid, e, locks), pid), pid, n - 1);
    assert st.running[pid := e] - {pid} == st.running - {pid};
  }

  // ----- a resolver alone -----

  function Starting(work: Work): Execution {
    Execution(work, None, None, 0, Fresh)
  }

  /** The five reads of a resolver whose row is parked. */
  lemma ResolverReads(st: State, pid: nat, id: Id, max: int, s: Stamp, tx: WagerTx, w: Wallet, retry: Retry)
    requires Unobstructed(st, pid) && id in st.db.txs && tx == st.db.txs[id] && tx.status == PendingReference
    requires id in st.db.retries && retry == st.db.retries[id]
    requires tx.walletId in st.db.wallets && w == st.db.wallets[tx.walletId]
    ensures var work := Resolver(id, max, s);
      var e0, e1 := Starting(work), Execution(work, Some(tx), None, 0, Unclaimed);
      var e2 := e1.(retry := Some(retry), phase := Waiting);
      var e3 := e2.(ticket := st.clock, phase := Holding(w));
      && Advanced(At(st, pid, e0, 0), pid) == At(st, pid, e1, 0)
      && Advanced(At(st, pid, e1, 0), pid) == At(st, pid, e2, 0)
      && Advanced(At(st, pid, e2, 0), pid) == At(st, pid, e3, 1)
      && Advanced(At(st, pid, e3, 1), pid) == At(st, pid, e3.(phase := Entered(w, tx)), 1)
      && Advanced(At(st, pid, e3.(phase := Entered(w, tx)), 1), pid) ==
         At(st, pid, e3.(phase := Seen(w, tx, ReferenceOf(st.db, tx))), 1)
  {
    hide ReferenceOf, Unobstructed, Locked, Claimed;
    var e2 := Execution(Resolver(id, max, s), Some(tx), Some(retry), 0, Waiting);
    StillUnobstructed(st, pid, e2, 0);
    NotLocked(At(st, pid, e2, 0), pid, tx.walletId);
  }

  lemma StillUnobstructed(st: State, pid: nat, e: Execution, locks: nat)
    requires Unobstructed(st, pid)
    ensures Unobstructed(At(st, pid, e, locks), pid)
  {
  }

  /** A parked row's resolver, unobstructed, gets as far as its reference. */
  lemma ResolverToReference(st: State, pid: nat, id: Id, max: int, s: Stamp, n: nat)
    requires Inv(st.db, {}) && IsParked(st.db, id) && Unobstructed(st, pid)
    ensures id in st.db.retries && st.db.txs[id].walletId in st.db.wallets
    ensures var tx := st.db.txs[id];
      var w, retry := st.db.wallets[tx.walletId], st.db.retries[id];
      var e := Execution(Resolver(id, max, s), Some(tx), Some(retry), st.clock, Seen(w, tx, ReferenceOf(st.db, tx)));
      Finish(At(st, pid, Starting(e.work), 0), pid, n + 5) == Finish(At(st, pid, e, 1), pid, n)
  {
    hide Inv, ReferenceOf, Unobstructed, Advanced;
    ParkedRow(st.db, id);
    var tx := st.db.txs[id];
    var w, retry := st.db.wallets[tx.walletId], st.db.retries[id];
    ResolverReads(st, pid, id, max, s, tx, w, retry);
    var e1 := Execution(Resolver(id, max, s), Some(tx), None, 0, Unclaimed);
    var e2 := e1.(retry := Some(retry), phase := Waiting);
    var e3 := e2.(ticket := st.clock, phase := Holding(w));
    hide Finish;
    FinishStep(At(st, pid, Starting(e1.work), 0), pid, n + 5);
    FinishStep(At(st, pid, e1, 0), pid, n + 4);
    FinishStep(At(st, pid, e2, 0), pid, n + 3);
    FinishStep(At(st, pid, e3, 1), pid, n + 2);
    FinishStep(At(st, pid, e3.(phase := Entered(w, tx)), 1), pid, n + 1);
  }

  /** What the resolver then decides is what the serial step decides. */
  lemma ResolverDecides(st: State, pid: nat, e: Execution, w: Wallet, tx: WagerTx, retry: Retry)
    requires e.work.Resolver? && e.phase == Seen(w, tx, ReferenceOf(st.db, tx)) && e.retry == Some(retry)
    ensures var res := ResolutionFor(st.db, tx, retry, w, e.work.max, e.work.s);
      Advanced(At(st, pid, e, 1), pid) ==
        if res.Final? && res.landing.Stopped? then End(At(st, pid, e, 1), pid)
        else At(st, pid, e.(phase := Decided(w, tx, res)), 1)
  {
    hide ReferenceOf, Land, JudgeReference, Exhausted;
  }

  /** A resolver that nobody obstructs does its serial step. */
  lemma ResolverAlone(st: State, pid: nat, id: Id, max: int, s: Stamp)
    requires Inv(st.db, {}) && Unobstructed(st, pid)
    ensures Gone(st, Finish(At(st, pid, Starting(Resolver(id, max, s)), 0), pid, 7), pid, Next(st.db, Retried(id, max, s)))
  {
    var work := Resolver(id, max, s);
    if !IsParked(st.db, id) {
      hide Inv, Unobstructed, Finish;
      EndsHere(st, pid, Starting(work), 0, 7);
    } else {
      hide Inv, Unobstructed, Finish, Advanced, Resolve, ResolutionFor, ReferenceOf, Gone, Written, Outcome, Justified, At;
      ResolverToReference(st, pid, id, max, s, 2);
      ResolveCases(st.db, id, max, s);
      var tx := st.db.txs[id];
      var w, retry := st.db.wallets[tx.walletId], st.db.retries[id];
      var e := Execution(work, Some(tx), Some(retry), st.clock, Seen(w, tx, ReferenceOf(st.db, tx)));
      ResolverDecides(st, pid, e, w, tx, retry);
      var res := ResolutionFor(st.db, tx, retry, w, max, s);
      if res.Final? && res.landing.Stopped? {
        EndsHere(st, pid, e, 1, 2);
      } else {
        AtStep(st, pid, e, e.(phase := Decided(w, tx, res)), 2);
        ResolverWrites(st.db, e.(phase := Decided(w, tx, res)), w, tx, res);
        CommitEnds(st, pid, e.(phase := Decided(w, tx, res)), 1);
      }
    }
  }

  lemma AtStep(st: State, pid: nat, e: Execution, f: Execution, n: nat)
    requires Prepared(e.work) && f.work == e.work && Advanced(At(st, pid, e, 1), pid) == At(st, pid, f, 1) && n > 0
    ensures Finish(At(st, pid, e, 1), pid, n) == Finish(At(st, pid, f, 1), pid, n - 1)
  {
    hide Advanced, Finish, Prepare;
    FinishStep(At(st, pid, e, 1), pid, n);
  }

  /** The writes of the decision are the writes of the serial step. */
  lemma ResolverWrites(db: Database, e: Execution, w: Wallet, tx: WagerTx, res: Resolution)
    requires e.work.Resolver? && tx.id == e.work.txId && IsParked(db, tx.id) && tx == db.txs[tx.id]
    requires tx.walletId in db.wallets && w == db.wallets[tx.walletId] && w.id == tx.walletId
    requires tx.id in db.retries && e.retry == Some(db.retries[tx.id])
    requires res == ResolutionFor(db, tx, db.retries[tx.id], w, e.work.max, e.work.s)
    ensures Written(db, e, w, tx, res) == Resolve(db, tx.id, e.work.max, e.work.s)
  {
    hide ResolutionFor, Write, Rescheduled;
  }

  // ----- a request alone -----

  /** Why a request ends without having settled anything. */
  predicate Unsettleable(db: Database, input: WagerInput, txId: Id) {
    || db.ByExternalId(input.providerId, input.externalId).Some?
    || db.ByIdempotencyKey(input.providerId, input.idempotencyKey).Some?
    || input.walletId !in db.wallets
    || txId in db.txs
  }

  /** Such a request leaves the tables alone when it runs at once. */
  lemma UnsettleableIsIdle(db: Database, input: WagerInput, txId: Id, s: Stamp)
    requires Unsettleable(db, input, txId)
    ensures Next(db, Submit(input, txId, s)) == db
  {
    hide Settle;
    if Prepare(input, txId, s.now).Success? {
      PreparedRow(input, txId, s.now);
    }
  }

  /** And when it runs statement by statement. */
  lemma UnsettleableEnds(st: State, pid: nat, input: WagerInput, txId: Id, s: Stamp)
    requires Prepare(input, txId, s.now).Success? && Unobstructed(st, pid) && Unsettleable(st.db, input, txId)
    ensures Gone(st, Finish(At(st, pid, Starting(Request(input, txId, s)), 0), pid, 7), pid, st.db)
  {
    hide Prepare, Unobstructed, Finish, Gone, Locked, Claimed;
    var e0 := Starting(Request(input, txId, s));
    var e1, e2 := e0.(phase := Unclaimed), e0.(phase := Waiting);
    var db := st.db;
    var ext := db.ByExternalId(input.providerId, input.externalId);
    if ext.Some? && ext.value.idempotencyKey != input.idempotencyKey {
      EndsHere(st, pid, e0, 0, 7);
    } else {
      assert Advanced(At(st, pid, e0, 0), pid) == At(st, pid, e1, 0);
      FinishStep(At(st, pid, e0, 0), pid, 7);
      if db.ByIdempotencyKey(input.providerId, input.idempotencyKey).Some? {
        EndsHere(st, pid, e1, 0, 6);
      } else {
        assert Advanced(At(st, pid, e1, 0), pid) == At(st, pid, e2, 0);
        FinishStep(At(st, pid, e1, 0), pid, 6);
        UnsettleableAtLock(st, pid, input, txId, s);
      }
    }
  }

  lemma UnsettleableAtLock(st: State, pid: nat, input: WagerInput, txId: Id, s: Stamp)
    requires Prepare(input, txId, s.now).Success? && Unobstructed(st, pid) && Unsettleable(st.db, input, txId)
    requires st.db.ByIdempotencyKey(input.providerId, input.idempotencyKey).None?
    ensures var e := Execution(Request(input, txId, s), None, None, 0, Waiting);
      Gone(st, Finish(At(st, pid, e, 0), pid, 5), pid, st.db)
  {
    hide Prepare, Finish, Gone, Locked, Claimed, Unobstructed;
    var e2 := Execution(Request(input, txId, s), None, None, 0, Waiting);
    if input.walletId !in st.db.wallets {
      EndsHere(st, pid, e2, 0, 5);
    } else {
      var e3 := e2.(ticket := st.clock, phase := Holding(st.db.wallets[input.walletId]));
      StillUnobstructed(st, pid, e2, 0);
      NotLocked(At(st, pid, e2, 0), pid, input.walletId);
      assert Advanced(At(st, pid, e2, 0), pid) == At(st, pid, e3, 1);
      FinishStep(At(st, pid, e2, 0), pid, 5);
      StillUnobstructed(st, pid, e3, 1);
      NotClaimed(At(st, pid, e3, 1), pid, input);
      EndsHere(st, pid, e3, 1, 4);
    }
  }

  /** The steps of a request that can settle, up to its insert. */
  lemma RequestReads(st: State, pid: nat, input: WagerInput, txId: Id, s: Stamp, w: Wallet, tx: WagerTx)
    requires Prepare(input, txId, s.now) == Success(tx) && Unobstructed(st, pid) && !Unsettleable(st.db, input, txId)
    requires w == st.db.wallets[input.walletId]
    ensures var e0 := Starting(Request(input, txId, s));
      var e2 := e0.(phase := Waiting);
      var e3 := e2.(ticket := st.clock, phase := Holding(w));
      && Advanced(At(st, pid, e0, 0), pid) == At(st, pid, e0.(phase := Unclaimed), 0)
      && Advanced(At(st, pid, e0.(phase := Unclaimed), 0), pid) == At(st, pid, e2, 0)
      && Advanced(At(st, pid, e2, 0), pid) == At(st, pid, e3, 1)
      && Advanced(At(st, pid, e3, 1), pid) == At(st, pid, e3.(phase := Entered(w, tx)), 1)
  {
    hide Prepare, Unobstructed, Locked, Claimed;
    var e2 := Execution(Request(input, txId, s), None, None, 0, Waiting);
    var e3 := e2.(ticket := st.clock, phase := Holding(w));
    StillUnobstructed(st, pid, e2, 0);
    NotLocked(At(st, pid, e2, 0), pid, input.walletId);
    StillUnobstructed(st, pid, e3, 1);
    NotClaimed(At(st, pid, e3, 1), pid, input);
  }

  lemma RequestToInsert(st: State, pid: nat, input: WagerInput, txId: Id, s: Stamp, w: Wallet, tx: WagerTx)
    requires Prepare(input, txId, s.now) == Success(tx) && Unobstructed(st, pid) && !Unsettleable(st.db, input, txId)
    requires w == st.db.wallets[input.walletId]
    ensures var e := Execution(Request(input, txId, s), None, None, st.clock, Entered(w, tx));
      Finish(At(st, pid, Starting(e.work), 0), pid, 7) == Finish(At(st, pid, e, 1), pid, 3)
  {
    hide Prepare, Unobstructed, Finish, Advanced;
    RequestReads(st, pid, input, txId, s, w, tx);
    var e0 := Starting(Request(input, txId, s));
    var e3 := e0.(ticket := st.clock, phase := Holding(w));
    FinishStep(At(st, pid, e0, 0), pid, 7);
    FinishStep(At(st, pid, e0.(phase := Unclaimed), 0), pid, 6);
    FinishStep(At(st, pid, e0.(phase := Waiting), 0), pid, 5);
    FinishStep(At(st, pid, e3, 1), pid, 4);
  }

  /** A request that is no reversal of its own wallet decides at once. */
  lemma DecidesAtOnce(st: State, pid: nat, e: Execution, w: Wallet, tx: WagerTx)
    requires e.work.Request? && Prepared(e.work) && e.phase == Entered(w, tx) && !(Owned(w, tx) && tx.IsReversal())
    ensures var l := Landed(st.db.Insert(tx), tx, w, e.work.TheStamp());
      Advanced(At(st, pid, e, 1), pid) ==
        if l.Stopped? then End(At(st, pid, e, 1), pid) else At(st, pid, e.(phase := Decided(w, tx, Final(l))), 1)
  {
    hide Prepare, ReferenceOf, Landed, Decision;
    assert !AlreadyReversed(st.db, None);
    hide AlreadyReversed;
    var base := st.db.Insert(tx);
    var ref := ReferenceOf(base, tx);
    RequestDecision(st.db, e, w, tx);
    NotOwnedIgnores(e, w, tx, None, false, ref, AlreadyReversed(base, ref));
  }

  /** Any other looks its reference up first. */
  lemma LooksUp(st: State, pid: nat, e: Execution, w: Wallet, tx: WagerTx)
    requires e.work.Request? && Prepared(e.work) && e.phase == Entered(w, tx) && Owned(w, tx) && tx.IsReversal()
    ensures Advanced(At(st, pid, e, 1), pid) == At(st, pid, e.(phase := Seen(w, tx, ReferenceOf(st.db.Insert(tx), tx))), 1)
  {
    hide Prepare, ReferenceOf;
  }

  lemma DecidesOnReference(st: State, pid: nat, e: Execution, w: Wallet, tx: WagerTx)
    requires e.work.Request? && Prepared(e.work) && e.phase == Seen(w, tx, ReferenceOf(st.db.Insert(tx), tx))
    ensures var l := Landed(st.db.Insert(tx), tx, w, e.work.TheStamp());
      Advanced(At(st, pid, e, 1), pid) ==
        if l.Stopped? then End(At(st, pid, e, 1), pid) else At(st, pid, e.(phase := Decided(w, tx, Final(l))), 1)
  {
    hide Prepare, ReferenceOf, Landed, Decision, AlreadyReversed;
    RequestDecision(st.db, e, w, tx);
  }

  lemma RequestDecision(db: Database, e: Execution, w: Wallet, tx: WagerTx)
    requires e.work.Request?
    ensures var base := db.Insert(tx);
      var ref := ReferenceOf(base, tx);
      && Decision(e, w, tx, ref, AlreadyReversed(base, ref)) == Final(Landed(base, tx, w, e.work.TheStamp()))
      && AlreadyReversed(base, ref) == AlreadyReversed(db, ref)
  {
    hide ReferenceOf, Judge, Land;
  }

  /** From the insert to the decision, which is the serial one. */
  lemma RequestDecides(st: State, pid: nat, e: Execution, w: Wallet, tx: WagerTx)
    requires e.work.Request? && Prepared(e.work) && e.phase == Entered(w, tx)
    ensures var l := Landed(st.db.Insert(tx), tx, w, e.work.TheStamp());
      if l.Stopped? then Gone(st, Finish(At(st, pid, e, 1), pid, 3), pid, st.db)
      else Finish(At(st, pid, e, 1), pid, 3) ==
           Finish(At(st, pid, e.(phase := Decided(w, tx, Final(l))), 1), pid, if Owned(w, tx) && tx.IsReversal() then 1 else 2)
  {
    hide Advanced, Prepare, ReferenceOf, Landed, Finish, Gone, At;
    var base := st.db.Insert(tx);
    var l := Landed(base, tx, w, e.work.TheStamp());
    var seen, decided := e.(phase := Seen(w, tx, ReferenceOf(base, tx))), e.(phase := Decided(w, tx, Final(l)));
    if !(Owned(w, tx) && tx.IsReversal()) {
      DecidesAtOnce(st, pid, e, w, tx);
      if l.Stopped? {
        EndsHere(st, pid, e, 1, 3);
      } else {
        AtStep(st, pid, e, decided, 3);
      }
    } else {
      LooksUp(st, pid, e, w, tx);
      DecidesOnReference(st, pid, seen, w, tx);
      AtStep(st, pid, e, seen, 3);
      if l.Stopped? {
        EndsHere(st, pid, seen, 1, 2);
      } else {
        AtStep(st, pid, seen, decided, 2);
      }
    }
  }

  /** A request that nobody obstructs does its serial step. */
  lemma RequestAlone(st: State, pid: nat, input: WagerInput, txId: Id, s: Stamp)
    requires Inv(st.db, {}) && Unobstructed(st, pid) && Prepare(input, txId, s.now).Success?
    requires txId !in st.db.wallets
    ensures Gone(st, Finish(At(st, pid, Starting(Request(input, txId, s)), 0), pid, 7), pid, Next(st.db, Submit(input, txId, s)))
  {
    hide Inv, Unobstructed, Finish, Gone, Prepare, Settle, Landed, Written, Outcome, Justified, Process, Enterable, At;
    if Unsettleable(st.db, input, txId) {
      UnsettleableEnds(st, pid, input, txId, s);
      UnsettleableIsIdle(st.db, input, txId, s);
    } else {
      var tx, w := Prepare(input, txId, s.now).value, st.db.wallets[input.walletId];
      var e := Execution(Request(input, txId, s), None, None, st.clock, Entered(w, tx));
      PreparedRow(input, txId, s.now);
      EnterableHere(st.db, input, txId, s.now);
      WalletIds(st.db, tx.walletId);
      SettleKeeps(st.db, tx, e.work.TheStamp());
      FreshRequest(st.db, input, txId, s);
      RequestToInsert(st, pid, input, txId, s, w, tx);
      RequestDecides(st, pid, e, w, tx);
      var l := Landed(st.db.Insert(tx), tx, w, e.work.TheStamp());
      if !l.Stopped? {
        var f := e.(phase := Decided(w, tx, Final(l)));
        RequestWrites(st.db, f, w, tx, l);
        CommitEnds(st, pid, f, if Owned(w, tx) && tx.IsReversal() then 1 else 2);
      }
    }
  }

  lemma WalletIds(db: Database, id: Id)
    requires Inv(db, {}) && id in db.wallets
    ensures db.wallets[id].id == id
  {
  }

  lemma RequestWrites(db: Database, e: Execution, w: Wallet, tx: WagerTx, l: Landing)
    requires e.work.Request? && tx.walletId in db.wallets && w == db.wallets[tx.walletId] && w.id == tx.walletId
    requires l == Landed(db.Insert(tx), tx, w, e.work.TheStamp())
    ensures Settle(db, tx, e.work.TheStamp()).Success? ==>
      Written(db, e, w, tx, Final(l)) == Success(Settle(db, tx, e.work.TheStamp()).value.db)
  {
    hide Write, Landed, Marked;
  }

  /** Either of them, from its arrival. */
  lemma WorkAlone(st: State, pid: nat, work: Work)
    requires Inv(st.db, {}) && Unobstructed(st, pid) && Prepared(work) && (work.Request? ==> work.txId !in st.db.wallets)
    ensures Gone(st, Finish(Put(st, pid, Starting(work)), pid, 7), pid, Next(st.db, work.AsStep()))
  {
    hide Inv, Unobstructed, Finish, Gone, Prepare, Next;
    assert At(st, pid, Starting(work), 0) == Put(st, pid, Starting(work));
    match work {
      case Request(input, txId, s) => RequestAlone(st, pid, input, txId, s);
      case Resolver(txId, max, s) => ResolverAlone(st, pid, txId, max, s);
    }
  }
}

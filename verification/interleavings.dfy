/**
 Runs of the interleaved machine. Any number of requests, resolver executions, openings and
 leases, any schedule, any deaths: the committed tables are those of a serial run.
 */
module Interleavings {
  import opened Wrappers
  import opened Apperr
  import opened DomainMoney
  import opened DomainWagering
  import opened DomainWallet
  import opened DomainEvent
  import opened Postgres
  import opened AppProcess
  import opened AppResolve
  import opened AppOpen
  import opened Invariants
  import opened Settlement
  import opened Openings
  import opened Runs
  import opened History
  import opened Replays
  import opened Conservation
  import opened Commits
  import opened Parking
  import opened Locking
  import opened LockRefinement

  // ----- the machine's invariant -----

  /** Two executions never hold one wallet, never share a row, and never have the same keys in flight. */
  ghost predicate TellApart(e: Execution, f: Execution) {
    && (e.phase.Locks() && f.phase.Locks() ==> e.WalletId() != f.WalletId())
    && (e.work.Request? == f.work.Request? ==> e.work.txId != f.work.txId)
    && (e.work.Request? && f.work.Request? && e.phase.InFlight() && f.phase.InFlight() ==>
          !SameKeys(e.work.input, f.work.input))
  }

  ghost predicate Exclusive(running: map<nat, Execution>) {
    forall p, q | p in running && q in running && p != q :: TellApart(running[p], running[q])
  }

  ghost predicate AllSound(db: Database, running: map<nat, Execution>) {
    forall p | p in running :: Sound(db, running[p])
  }

  /** Tickets of committed executions are past; on one wallet they come in commit order. */
  ghost predicate Ordered(log: seq<Entry>, clock: nat) {
    && (forall i | 0 <= i < |log| && !log[i].Apart? :: log[i].ticket < clock)
    && (forall i, j | 0 <= i < j < |log| && !log[i].Apart? && !log[j].Apart? && log[i].walletId == log[j].walletId ::
          log[i].ticket < log[j].ticket)
  }

  /** Whoever holds a wallet now took it after everyone who committed on it. */
  ghost predicate Latest(log: seq<Entry>, e: Execution) {
    forall i | 0 <= i < |log| && !log[i].Apart? && log[i].walletId == e.WalletId() :: log[i].ticket < e.ticket
  }

  ghost predicate Ticketed(st: State) {
    && Ordered(st.log, st.clock)
    && forall p | p in st.running && st.running[p].phase.Locks() ::
         st.running[p].ticket < st.clock && Latest(st.log, st.running[p])
  }

  /** The reference that the step names is settled, and on another wallet. */
  ghost predicate Elsewhere(db: Database, step: Step) {
    match step
    case Submit(input, _, _) =>
      var ref := db.ByExternalId(input.providerId, input.referenceExternalId);
      !Unsettled(ref) && ref.value.walletId != input.walletId
    case Retried(txId, _, _) =>
      txId in db.txs && Foreign(db, db.txs[txId], db.txs[txId].walletId)
    case _ => false
  }

  ghost predicate RowsKept(a: Database, b: Database) {
    forall id | id in a.txs :: id in b.txs && b.txs[id].walletId == a.txs[id].walletId
  }

  /** Only references on other wallets are ever missed; what is committed is faithful to all that was. */
  ghost predicate Logged(db0: Database, db: Database, log: seq<Entry>) {
    && db == Redone(db0, log)
    && (forall i | 0 <= i < |log| && log[i].Overtaken? :: Elsewhere(Redone(db0, log[..i]), log[i].step))
    && (forall i | 0 <= i <= |log| :: Faithful(Redone(db0, log[..i]), db))
  }

  ghost predicate MachineInv(db0: Database, st: State) {
    && Inv(st.db, {}) && Logged(db0, st.db, st.log) && st.refused == 0
    && AllSound(st.db, st.running) && Exclusive(st.running) && Ticketed(st)
  }

  // ----- the log grows by serial steps -----

  lemma LogGrows(db0: Database, db: Database, log: seq<Entry>, entry: Entry, d: Database)
    requires Logged(db0, db, log) && d == Redo(db, entry) && Faithful(db, d)
    requires entry.Overtaken? ==> Elsewhere(db, entry.step)
    ensures Logged(db0, d, log + [entry])
  {
    hide Redo, Redone, Elsewhere, Faithful;
    var all := log + [entry];
    FaithfulHere(db, d);
    RedoneMore(db0, log, entry);
    forall i | 0 <= i < |all| && all[i].Overtaken?
      ensures Elsewhere(Redone(db0, all[..i]), all[i].step)
    {
      assert all[..i] == log[..i];
    }
    forall i | 0 <= i <= |all|
      ensures Faithful(Redone(db0, all[..i]), d)
    {
      if i < |all| {
        assert all[..i] == log[..i];
        FaithfulTransitive(Redone(db0, log[..i]), db, d);
      } else {
        assert all[..i] == all;
      }
    }
  }

  lemma RedoneMore(db0: Database, log: seq<Entry>, entry: Entry)
    ensures Redone(db0, log + [entry]) == Redo(Redone(db0, log), entry)
  {
    hide Redo;
    assert (log + [entry])[..|log|] == log;
  }

  lemma FaithfulHere(db: Database, d: Database)
    requires Faithful(db, d)
    ensures Inv(d, {}) && Faithful(d, d)
  {
    hide Inv, Evolves, Conserved, Hashed;
    InvForward(d);
  }

  lemma FaithfulRows(db: Database, d: Database)
    requires Faithful(db, d)
    ensures RowsKept(db, d)
  {
    hide Inv, Conserved, Hashed, WalletsForward, RetriesForward, IndexesForward, LogsForward;
  }

  lemma TicketsGrow(st: State, pid: nat, entry: Entry)
    requires Ticketed(st) && Exclusive(st.running) && pid in st.running && st.running[pid].phase.Locks()
    requires !entry.Apart? && entry.walletId == st.running[pid].WalletId() && entry.ticket == st.running[pid].ticket
    ensures Ordered(st.log + [entry], st.clock)
    ensures forall p | p in st.running && p != pid && st.running[p].phase.Locks() :: Latest(st.log + [entry], st.running[p])
  {
    var e := st.running[pid];
    forall p | p in st.running && p != pid && st.running[p].phase.Locks()
      ensures Latest(st.log + [entry], st.running[p])
    {
      assert TellApart(st.running[p], e);
    }
  }

  // ----- steps that only advance one execution -----

  /** The same work, no further lock and no further keys. */
  predicate Continues(e: Execution, f: Execution) {
    && f.work == e.work
    && (f.phase.Locks() ==> e.phase.Locks() && f.WalletId() == e.WalletId() && f.ticket == e.ticket)
    && (f.phase.InFlight() ==> e.phase.InFlight())
  }

  /** The new execution fits beside all the others. */
  ghost predicate FitsIn(st: State, pid: nat, f: Execution) {
    && (forall q | q in st.running && q != pid :: TellApart(f, st.running[q]))
    && (f.phase.Locks() ==> f.ticket < st.clock && Latest(st.log, f))
  }

  lemma ContinuesFits(st: State, pid: nat, f: Execution)
    requires pid in st.running && Continues(st.running[pid], f) && Exclusive(st.running) && Ticketed(st)
    ensures FitsIn(st, pid, f)
  {
    forall q | q in st.running && q != pid
      ensures TellApart(f, st.running[q])
    {
      assert TellApart(st.running[pid], st.running[q]);
    }
  }

  lemma PutKeeps(db0: Database, st: State, pid: nat, f: Execution)
    requires MachineInv(db0, st) && Sound(st.db, f) && FitsIn(st, pid, f)
    ensures MachineInv(db0, Put(st, pid, f))
  {
    hide Inv, Logged, Sound, Latest, Ordered;
    var running := st.running[pid := f];
    forall p, q | p in running && q in running && p != q
      ensures TellApart(running[p], running[q])
    {
      if p == pid {
        assert TellApart(f, st.running[q]);
      } else if q == pid {
        assert TellApart(f, st.running[p]);
      } else {
        assert TellApart(st.running[p], st.running[q]);
      }
    }
  }

  lemma EndKeeps(db0: Database, st: State, pid: nat)
    requires MachineInv(db0, st)
    ensures MachineInv(db0, End(st, pid))
  {
    hide Inv, Logged, Sound, Latest, Ordered, TellApart;
  }

  lemma ArriveKeeps(db0: Database, st: State, pid: nat, work: Work)
    requires MachineInv(db0, st) && Enabled(st, Arrive(pid, work))
    ensures MachineInv(db0, After(st, Arrive(pid, work)))
  {
    hide Inv, Logged, Prepare;
    PutKeeps(db0, st, pid, Execution(work, None, None, 0, Fresh));
  }

  // ----- every statement keeps the invariant -----

  lemma UnlockedReadKeeps(db0: Database, st: State, pid: nat)
    requires MachineInv(db0, st) && Enabled(st, Advance(pid))
    requires st.running[pid].phase.Fresh? || st.running[pid].phase.Unclaimed?
    ensures MachineInv(db0, Advanced(st, pid))
  {
    hide Inv, Logged, Sound, Ticketed, Exclusive, FitsIn;
    var e, after := st.running[pid], Advanced(st, pid);
    if e.phase.Fresh? {
      FirstReadSound(st, pid);
    } else {
      SecondReadSound(st, pid);
    }
    if pid in after.running {
      ContinuesFits(st, pid, after.running[pid]);
      PutKeeps(db0, st, pid, after.running[pid]);
    } else {
      EndKeeps(db0, st, pid);
    }
  }

  lemma MachineAt(db0: Database, st: State, pid: nat)
    requires MachineInv(db0, st) && pid in st.running
    ensures Inv(st.db, {}) && Sound(st.db, st.running[pid]) && Exclusive(st.running) && Ticketed(st)
  {
    hide Inv, Logged, Sound, Exclusive, Ticketed;
  }

  /** The lock is granted only when nobody holds it, with the next ticket. */
  lemma LockKeeps(db0: Database, st: State, pid: nat)
    requires MachineInv(db0, st) && Enabled(st, Advance(pid)) && st.running[pid].phase.Waiting?
    ensures MachineInv(db0, Advanced(st, pid))
  {
    hide MachineInv, Sound, Inv, Prepare;
    MachineAt(db0, st, pid);
    LockSound(st, pid);
    var e := st.running[pid];
    if e.WalletId() !in st.db.wallets {
      EndKeeps(db0, st, pid);
    } else if !Locked(st, pid, e.WalletId()) {
      var f := e.(ticket := st.clock, phase := Holding(st.db.wallets[e.WalletId()]));
      var next := st.(clock := st.clock + 1);
      ClockKeeps(db0, st);
      LockFits(st, pid, f);
      hide Locked;
      PutKeeps(db0, next, pid, f);
    }
  }

  lemma ClockKeeps(db0: Database, st: State)
    requires MachineInv(db0, st)
    ensures MachineInv(db0, st.(clock := st.clock + 1))
  {
    hide Inv, Logged, Sound, Exclusive, Latest;
  }

  lemma LockFits(st: State, pid: nat, f: Execution)
    requires pid in st.running && Exclusive(st.running) && Ticketed(st) && !Locked(st, pid, st.running[pid].WalletId())
    requires f == st.running[pid].(ticket := st.clock, phase := f.phase) && f.phase.Holding?
    ensures FitsIn(st.(clock := st.clock + 1), pid, f)
  {
    forall q | q in st.running && q != pid
      ensures TellApart(f, st.running[q])
    {
      assert TellApart(st.running[pid], st.running[q]);
    }
    assert Ordered(st.log, st.clock);
  }

  /** An insert goes through only when none of its keys is in flight. */
  lemma EnterKeeps(db0: Database, st: State, pid: nat)
    requires MachineInv(db0, st) && Enabled(st, Advance(pid)) && st.running[pid].phase.Holding?
    ensures MachineInv(db0, Advanced(st, pid))
  {
    hide MachineInv, Sound, Inv, Prepare, Locked;
    MachineAt(db0, st, pid);
    var e, after := st.running[pid], Advanced(st, pid);
    EnterSound(st, pid, e.phase.w);
    if e.work.Request? && Claimed(st, pid, e.work.input) {
    } else if pid in after.running {
      EnterFits(st, pid, after.running[pid]);
      hide Claimed;
      PutKeeps(db0, st, pid, after.running[pid]);
    } else {
      EndKeeps(db0, st, pid);
    }
  }

  lemma EnterFits(st: State, pid: nat, f: Execution)
    requires pid in st.running && Exclusive(st.running) && Ticketed(st) && st.running[pid].phase.Locks()
    requires st.running[pid].work.Request? ==> !Claimed(st, pid, st.running[pid].work.input)
    requires f == st.running[pid].(phase := f.phase) && f.phase.Entered?
    ensures FitsIn(st, pid, f)
  {
    forall q | q in st.running && q != pid
      ensures TellApart(f, st.running[q])
    {
      assert TellApart(st.running[pid], st.running[q]);
    }
  }

  lemma LookKeeps(db0: Database, st: State, pid: nat)
    requires MachineInv(db0, st) && Enabled(st, Advance(pid)) && st.running[pid].phase.Entered?
    ensures MachineInv(db0, Advanced(st, pid))
  {
    hide MachineInv, Inv, Decision, ReferenceOf, Base, Prepare, Sound;
    MachineAt(db0, st, pid);
    var e := st.running[pid];
    LookUpSound(st, pid, e.phase.w, e.phase.tx);
    GoesOn(db0, st, LookUp(st, pid, e, e.phase.w, e.phase.tx), pid);
  }

  lemma DecideKeeps(db0: Database, st: State, pid: nat)
    requires MachineInv(db0, st) && Enabled(st, Advance(pid)) && st.running[pid].phase.Seen?
    ensures MachineInv(db0, Advanced(st, pid))
  {
    hide MachineInv, Inv, Decision, ReferenceOf, Base, Prepare;
    MachineAt(db0, st, pid);
    var e := st.running[pid];
    DecideSound(st, pid, e.phase.w, e.phase.tx, e.phase.ref);
    hide Sound;
    GoesOn(db0, st, Decide(st, pid, e, e.phase.w, e.phase.tx, e.phase.ref), pid);
  }

  /** An execution that keeps its lock and its keys goes on or ends. */
  lemma GoesOn(db0: Database, st: State, after: State, pid: nat)
    requires MachineInv(db0, st) && pid in st.running
    requires after == End(st, pid) ||
      (pid in after.running && after == Put(st, pid, after.running[pid]) &&
       Continues(st.running[pid], after.running[pid]) && Sound(st.db, after.running[pid]))
    ensures MachineInv(db0, after)
  {
    hide MachineInv, Sound;
    MachineAt(db0, st, pid);
    if after == End(st, pid) {
      EndKeeps(db0, st, pid);
    } else {
      ContinuesFits(st, pid, after.running[pid]);
      hide FitsIn;
      PutKeeps(db0, st, pid, after.running[pid]);
    }
  }

  // ----- commits -----

  /** The committing execution and any other are told apart. */
  lemma OthersToldApart(db: Database, d: Database, e: Execution, f: Execution)
    requires Inv(db, {}) && Known(db, e) && Known(db, f) && TellApart(e, f) && e.phase.Decided?
    requires Beside(db, d, e.work.txId, e.WalletId()) && e.WalletId() in db.wallets
    requires f.work.Request? || !f.phase.Fresh?
    requires e.work.Request? ==>
      && e.work.txId in d.txs && d.txs[e.work.txId].providerId == e.work.input.providerId
      && d.txs[e.work.txId].externalId == e.work.input.externalId
      && d.txs[e.work.txId].idempotencyKey == e.work.input.idempotencyKey
    ensures ToldApart(db, d, e.work.txId, e.WalletId(), f)
  {
    RowsAreNoWallets(db);
    OtherIds(db, d, e, f);
    hide Inv, Beside, Prepare, Known;
  }

  lemma KnownOf(db: Database, e: Execution)
    requires Sound(db, e)
    ensures Known(db, e)
  {
  }

  lemma OtherIds(db: Database, d: Database, e: Execution, f: Execution)
    requires Known(db, e) && Known(db, f) && TellApart(e, f) && e.phase.Decided? && (f.work.Request? || !f.phase.Fresh?)
    requires Beside(db, d, e.work.txId, e.WalletId()) && e.WalletId() in db.wallets
    requires db.txs.Keys !! db.wallets.Keys
    ensures f.work.txId != e.work.txId && f.work.txId !in d.wallets
    ensures e.work.Resolver? ==> e.work.txId in db.txs
  {
    hide KeysBeside, Prepare, RowsBeside;
  }

  lemma RowsAreNoWallets(db: Database)
    requires Inv(db, {})
    ensures db.txs.Keys !! db.wallets.Keys && NIL !in db.wallets && NIL !in db.txs && db.Keyed()
  {
    hide Indexed, Shapes, Reversals, Chains, Booked, Announced, WalletRow;
  }

  lemma OthersStaySound(db: Database, d: Database, e: Execution, f: Execution)
    requires Inv(db, {}) && Inv(d, {}) && Sound(db, e) && Sound(db, f) && TellApart(e, f) && e.phase.Decided?
    requires Beside(db, d, e.work.txId, e.WalletId()) && e.WalletId() in db.wallets
    requires e.work.Request? ==>
      && e.work.txId in d.txs && d.txs[e.work.txId].providerId == e.work.input.providerId
      && d.txs[e.work.txId].externalId == e.work.input.externalId
      && d.txs[e.work.txId].idempotencyKey == e.work.input.idempotencyKey
    ensures Sound(d, f)
  {
    if f.work.Request? || !f.phase.Fresh? {
      hide Inv, Beside, TellApart, ToldApart, Sound;
      KnownOf(db, e);
      KnownOf(db, f);
      OthersToldApart(db, d, e, f);
      SoundStays(db, d, e.work.txId, e.WalletId(), f);
    } else {
      hide Inv, Beside, TellApart;
    }
  }

  /** What was overtaken was overtaken from another wallet. */
  lemma OvertakenElsewhere(db: Database, e: Execution, w: Wallet, tx: WagerTx, res: Resolution)
    requires Inv(db, {}) && Sound(db, e) && e.phase == Decided(w, tx, res)
    ensures EntryOf(db, e, w, tx, res).Overtaken? ==> Elsewhere(db, e.work.AsStep())
    ensures w.id == e.WalletId() && w.id in db.wallets
  {
    RowFacts(db, e, tx);
    InvKeys(db, {});
    hide Inv, Decision, Now, RetryRead;
    if EntryOf(db, e, w, tx, res).Overtaken? {
      ForeignIsElsewhere(db, e, w, tx);
    }
  }

  lemma ForeignIsElsewhere(db: Database, e: Execution, w: Wallet, tx: WagerTx)
    requires db.Keyed() && Indexed(db) && Known(db, e) && RowRead(db, e, tx) && WalletRead(db, e, w)
    requires e.work.Request? ==> tx.id !in db.txs && tx.origin == External && tx.status == Pending
    requires e.work.Resolver? ==> tx.walletId == e.WalletId() && e.work.txId in db.txs
    requires Foreign(Base(db, e.work, tx), tx, w.id)
    ensures Elsewhere(db, e.work.AsStep())
  {
    if e.work.Request? {
      InsertedReference(db, tx);
      PreparedRow(e.work.input, e.work.txId, e.work.s.now);
    }
  }

  lemma CommitKeeps(db0: Database, st: State, pid: nat)
    requires MachineInv(db0, st) && Enabled(st, Advance(pid)) && st.running[pid].phase.Decided?
    ensures MachineInv(db0, Advanced(st, pid))
  {
    hide Inv, Logged, Sound, Redo, Written, Beside, Elsewhere, Ordered, Latest, Exclusive, Prepare, TellApart, Now, Decision, Faithful;
    var e := st.running[pid];
    var w, tx, res := e.phase.w, e.phase.tx, e.phase.res;
    OvertakenElsewhere(st.db, e, w, tx, res);
    if e.work.Request? {
      RequestCommits(st.db, e, w, tx, res);
    } else {
      ResolverCommits(st.db, e, w, tx, res);
    }
    var d, entry := Written(st.db, e, w, tx, res).value, EntryOf(st.db, e, w, tx, res);
    FaithfulHere(st.db, d);
    LogGrows(db0, st.db, st.log, entry, d);
    TicketsGrow(st, pid, entry);
    forall q | q in st.running && q != pid
      ensures Sound(d, st.running[q])
    {
      ApartFrom(st.running, pid, q);
      OthersStaySound(st.db, d, e, st.running[q]);
    }
    FewerExclusive(st.running, pid);
  }

  lemma ApartFrom(running: map<nat, Execution>, p: nat, q: nat)
    requires Exclusive(running) && p in running && q in running && p != q
    ensures TellApart(running[p], running[q])
  {
  }

  lemma FewerExclusive(running: map<nat, Execution>, pid: nat)
    requires Exclusive(running)
    ensures Exclusive(running - {pid})
  {
    hide TellApart;
  }

  // ----- openings and leases -----

  /** An opening adds a wallet nobody can hold yet. */
  lemma OpenBeside(db: Database, o: OpenInput, s: Stamp)
    requires Inv(db, {}) && Admissible(db, OpenFor(o, s))
    ensures Beside(db, Next(db, OpenFor(o, s)), o.txId, o.walletId)
    ensures o.txId in Next(db, OpenFor(o, s)).txs ==> Next(db, OpenFor(o, s)).txs[o.txId].origin == Internal
    ensures Open(db, o, s).Success? ==> o.walletId !in db.wallets
  {
    hide Inv, Opened, Beside, Open;
    OpenKeeps(db, o, s);
    if Open(db, o, s).Success? {
      OpenedBeside(db, o, s);
    } else {
      NothingBeside(db, o.txId, o.walletId);
    }
  }

  lemma NothingBeside(db: Database, own: Id, v: Id)
    requires own !in db.txs
    ensures Beside(db, db, own, v)
  {
  }

  lemma OpenedBeside(db: Database, o: OpenInput, s: Stamp)
    requires Openable(db, o, s)
    ensures Beside(db, Opened(db, o, s), o.txId, o.walletId)
    ensures o.txId in Opened(db, o, s).txs ==> Opened(db, o, s).txs[o.txId].origin == Internal
  {
    var d := Opened(db, o, s);
    OpenedAddsRows(db, o, s);
    hide Opened;
    assert RowsBeside(db, d, o.txId, o.walletId);
    hide RowsBeside;
    assert WalletsBeside(db, d, o.txId, o.walletId);
  }

  /** A lease moves due times only. */
  lemma LeaseBeside(db: Database, ids: set<Id>, lockUntil: int)
    requires NIL !in db.txs
    ensures Beside(db, Leased(db, ids, lockUntil), NIL, NIL)
  {
  }

  lemma OpenStaysSound(db: Database, o: OpenInput, s: Stamp, f: Execution)
    requires Inv(db, {}) && Admissible(db, OpenFor(o, s)) && Sound(db, f) && Inv(Next(db, OpenFor(o, s)), {})
    requires f.work.Request? ==> f.work.txId != o.walletId && f.work.txId != o.txId
    ensures Sound(Next(db, OpenFor(o, s)), f)
  {
    hide Inv, Beside, Open, Sound, ToldApart;
    if Open(db, o, s).Success? {
      OpenBeside(db, o, s);
      RowsAreNoWallets(db);
      if f.work.Request? || !f.phase.Fresh? {
        AsideToldApart(db, Next(db, OpenFor(o, s)), o.txId, o.walletId, f);
        SoundStays(db, Next(db, OpenFor(o, s)), o.txId, o.walletId, f);
      } else {
        FreshResolverSound(db, Next(db, OpenFor(o, s)), f);
      }
    }
  }

  lemma LeaseStaysSound(db: Database, ids: set<Id>, lockUntil: int, f: Execution)
    requires Inv(db, {}) && Sound(db, f) && Inv(Leased(db, ids, lockUntil), {})
    ensures Sound(Leased(db, ids, lockUntil), f)
  {
    hide Inv, Beside, Sound, ToldApart;
    RowsAreNoWallets(db);
    LeaseBeside(db, ids, lockUntil);
    if f.work.Request? || !f.phase.Fresh? {
      PreparedId(db, f);
      AsideToldApart(db, Leased(db, ids, lockUntil), NIL, NIL, f);
      SoundStays(db, Leased(db, ids, lockUntil), NIL, NIL, f);
    } else {
      FreshResolverSound(db, Leased(db, ids, lockUntil), f);
    }
  }

  lemma PreparedId(db: Database, f: Execution)
    requires Sound(db, f)
    ensures f.work.Request? ==> f.work.txId != NIL
  {
  }

  lemma FreshResolverSound(db: Database, d: Database, f: Execution)
    requires Sound(db, f) && f.work.Resolver? && f.phase.Fresh?
    ensures Sound(d, f)
  {
  }

  lemma AsideToldApart(db: Database, d: Database, own: Id, v: Id, f: Execution)
    requires Sound(db, f) && Beside(db, d, own, v) && own !in db.txs && v !in db.wallets && v !in db.txs
    requires db.txs.Keys !! db.wallets.Keys && (f.work.Request? || !f.phase.Fresh?)
    requires f.work.Request? ==> f.work.txId != own && f.work.txId != v
    requires own in d.txs ==> d.txs[own].origin == Internal
    ensures ToldApart(db, d, own, v, f)
  {
    hide RetryRead, RowRead, DecisionStands, ReferenceRead, KeysBeside;
  }

  lemma AsideKeeps(db0: Database, st: State, step: Step)
    requires MachineInv(db0, st) && Enabled(st, Aside(step))
    ensures MachineInv(db0, After(st, Aside(step)))
  {
    hide Inv, Logged, Sound, Next, Latest, Ordered, Exclusive, Faithful;
    var d := Next(st.db, step);
    StepIsFaithful(st.db, step);
    FaithfulHere(st.db, d);
    forall p | p in st.running
      ensures Sound(d, st.running[p])
    {
      match step {
        case OpenFor(o, s) => OpenStaysSound(st.db, o, s, st.running[p]);
        case Lease(ids, _, lockUntil) =>
          LeaseIs(st.db, step);
          LeaseStaysSound(st.db, ids, lockUntil, st.running[p]);
      }
    }
    hide Admissible;
    LogGrows(db0, st.db, st.log, Entry.Apart(step), d);
    ApartTickets(st, step);
  }

  lemma LeaseIs(db: Database, step: Step)
    requires step.Lease?
    ensures Next(db, step) == Leased(db, step.ids, step.lockUntil)
  {
  }

  lemma ApartTickets(st: State, step: Step)
    requires Ticketed(st)
    ensures Ticketed(st.(log := st.log + [Entry.Apart(step)]))
  {
    var log := st.log + [Entry.Apart(step)];
    forall p | p in st.running && st.running[p].phase.Locks()
      ensures Latest(log, st.running[p])
    {
      assert Latest(st.log, st.running[p]);
    }
  }

  // ----- runs of the machine -----

  /** One action, whatever it is, keeps the invariant. */
  lemma ActionKeeps(db0: Database, st: State, a: Action)
    requires MachineInv(db0, st) && Enabled(st, a)
    ensures MachineInv(db0, After(st, a))
  {
    hide MachineInv, Prepare;
    match a {
      case Arrive(pid, work) => ArriveKeeps(db0, st, pid, work);
      case Die(pid) => EndKeeps(db0, st, pid);
      case Aside(step) => AsideKeeps(db0, st, step);
      case Advance(pid) =>
        match st.running[pid].phase {
          case Fresh => UnlockedReadKeeps(db0, st, pid);
          case Unclaimed => UnlockedReadKeeps(db0, st, pid);
          case Orphaned => NeverOrphaned(db0, st, pid);
          case Waiting => LockKeeps(db0, st, pid);
          case Holding(_) => EnterKeeps(db0, st, pid);
          case Entered(_, _) => LookKeeps(db0, st, pid);
          case Seen(_, _, _) => DecideKeeps(db0, st, pid);
          case Decided(_, _, _) => CommitKeeps(db0, st, pid);
        }
    }
  }

  /** The branch for a parked row without a retry row is dead. */
  lemma NeverOrphaned(db0: Database, st: State, pid: nat)
    requires MachineInv(db0, st) && pid in st.running
    ensures !st.running[pid].phase.Orphaned?
  {
    hide Inv, Logged, Exclusive, Ticketed;
  }

  ghost function Ran(st: State, actions: seq<Action>): State
    requires EnabledRun(st, actions)
    decreases |actions|
  {
    if actions == [] then st else Ran(After(st, actions[0]), actions[1..])
  }

  ghost predicate EnabledRun(st: State, actions: seq<Action>)
    decreases |actions|
  {
    actions != [] ==> Enabled(st, actions[0]) && EnabledRun(After(st, actions[0]), actions[1..])
  }

  lemma {:induction false} RanKeeps(db0: Database, st: State, actions: seq<Action>)
    requires MachineInv(db0, st) && EnabledRun(st, actions)
    ensures MachineInv(db0, Ran(st, actions))
    decreases |actions|
  {
    if actions != [] {
      hide MachineInv, Possible, Alone, After;
      ActionKeeps(db0, st, actions[0]);
      RanKeeps(db0, After(st, actions[0]), actions[1..]);
    }
  }

  lemma {:induction false} RanConcat(st: State, a: seq<Action>, b: seq<Action>)
    ensures EnabledRun(st, a + b) <==> EnabledRun(st, a) && EnabledRun(Ran(st, a), b)
    ensures EnabledRun(st, a + b) ==> Ran(st, a + b) == Ran(Ran(st, a), b)
    decreases |a|
  {
    hide Possible, Alone, After;
    if a == [] {
      assert a + b == b;
    } else {
      assert (a + b)[0] == a[0] && (a + b)[1..] == a[1..] + b;
      if Enabled(st, a[0]) {
        RanConcat(After(st, a[0]), a[1..], b);
      }
    }
  }

  /** An action commits one more entry, or leaves the tables alone. */
  lemma LogOnlyGrows(db0: Database, st: State, a: Action)
    requires MachineInv(db0, st) && Enabled(st, a)
    ensures var next := After(st, a);
      || (next.db == st.db && next.log == st.log)
      || (|next.log| == |st.log| + 1 && next.log[..|st.log|] == st.log)
  {
    hide MachineInv, Next, Written, EntryOf, Decision, ReferenceOf, Base, Prepare, Locked, Claimed;
    if a.Advance? {
      NeverOrphaned(db0, st, a.pid);
    }
  }

  lemma ActionIsFaithful(db0: Database, st: State, a: Action)
    requires MachineInv(db0, st) && Enabled(st, a)
    ensures Faithful(st.db, After(st, a).db)
  {
    hide MachineInv, Faithful, Possible, Alone, After;
    var next := After(st, a);
    ActionKeeps(db0, st, a);
    LogOnlyGrows(db0, st, a);
    LoggedAt(db0, st, |st.log|);
    if next.log == st.log {
      LoggedAt(db0, next, |st.log|);
      assert next.log[..|st.log|] == next.log;
    } else {
      LoggedAt(db0, next, |st.log|);
    }
    assert st.log[..|st.log|] == st.log;
  }

  lemma LoggedAt(db0: Database, st: State, i: nat)
    requires MachineInv(db0, st) && i <= |st.log|
    ensures st.db == Redone(db0, st.log) && Faithful(Redone(db0, st.log[..i]), st.db)
  {
    hide Inv, AllSound, Exclusive, Ticketed, Faithful, Elsewhere;
  }

  /** Whatever the machine does next, it stays faithful to what is committed now. */
  lemma {:induction false} RanIsFaithful(db0: Database, st: State, actions: seq<Action>)
    requires MachineInv(db0, st) && EnabledRun(st, actions)
    ensures Faithful(st.db, Ran(st, actions).db)
    decreases |actions|
  {
    hide MachineInv, Possible, Alone, After, Faithful;
    if actions == [] {
      LoggedAt(db0, st, |st.log|);
      assert st.log[..|st.log|] == st.log;
    } else {
      ActionKeeps(db0, st, actions[0]);
      ActionIsFaithful(db0, st, actions[0]);
      RanIsFaithful(db0, After(st, actions[0]), actions[1..]);
      FaithfulTransitive(st.db, After(st, actions[0]).db, Ran(st, actions).db);
    }
  }

  function Start(db: Database): State {
    State(db, map[], [], 0, 0)
  }

  lemma StartIsFine(db: Database)
    requires Inv(db, {})
    ensures MachineInv(db, Start(db))
  {
    hide Inv, Faithful;
    StartIsFaithful(db);
    assert Redone(db, []) == db;
  }

  lemma StartIsFaithful(db: Database)
    requires Inv(db, {})
    ensures Faithful(db, db)
  {
    hide Inv, Evolves, Conserved, Hashed;
    InvForward(db);
  }

  /**
   Serializability. After any schedule the committed tables are those of the logged
   executions done one at a time in commit order; on each wallet that is the order in which
   they got its lock; no version guard and no unique index ever refused a commit; an
   execution missed its reference only if that reference was settled from another wallet
   after it was looked up; and nothing that was ever committed is taken back.
   */
  lemma Serializable(db0: Database, actions: seq<Action>)
    requires Inv(db0, {}) && EnabledRun(Start(db0), actions)
    ensures var st := Ran(Start(db0), actions);
      && st.db == Redone(db0, st.log) && Inv(st.db, {}) && st.refused == 0 && Ordered(st.log, st.clock)
      && (forall i | 0 <= i < |st.log| && st.log[i].Overtaken? :: Elsewhere(Redone(db0, st.log[..i]), st.log[i].step))
      && (forall i | 0 <= i <= |st.log| :: Faithful(Redone(db0, st.log[..i]), st.db))
      && (forall pid | pid in st.running :: !st.running[pid].phase.Orphaned?)
  {
    StartIsFine(db0);
    RanKeeps(db0, Start(db0), actions);
    var st := Ran(Start(db0), actions);
    forall pid | pid in st.running
      ensures !st.running[pid].phase.Orphaned?
    {
      NeverOrphaned(db0, st, pid);
    }
    hide Inv, AllSound, Exclusive, Elsewhere, Faithful, Ordered, Latest, EnabledRun;
  }

  function Steps(log: seq<Entry>): seq<Step> {
    seq(|log|, i requires 0 <= i < |log| => log[i].step)
  }

  lemma {:induction false} ExactIsRun(db0: Database, log: seq<Entry>)
    requires forall i | 0 <= i < |log| :: !log[i].Overtaken?
    ensures Redone(db0, log) == Run(db0, Steps(log))
    decreases |log|
  {
    if log != [] {
      hide Next;
      var init, last := log[..|log| - 1], log[|log| - 1];
      ExactIsRun(db0, init);
      assert Steps(log) == Steps(init) + [last.step];
      RunConcat(db0, Steps(init), [last.step]);
      assert Run(Run(db0, Steps(init)), [last.step]) == Next(Run(db0, Steps(init)), last.step);
    }
  }

  /** Everything happens on this wallet. */
  ghost predicate OnlyOn(st: State, walletId: Id) {
    && (forall id | id in st.db.txs :: st.db.txs[id].walletId == walletId)
    && (forall i | 0 <= i < |st.log| && st.log[i].step.Submit? :: st.log[i].step.input.walletId == walletId)
  }

  /** On a single wallet the interleaved run is exactly a run of the use cases in lock order. */
  lemma SingleWalletIsRun(db0: Database, actions: seq<Action>, walletId: Id)
    requires Inv(db0, {}) && EnabledRun(Start(db0), actions) && OnlyOn(Ran(Start(db0), actions), walletId)
    ensures var st := Ran(Start(db0), actions); st.db == Run(db0, Steps(st.log))
  {
    StartIsFine(db0);
    RanKeeps(db0, Start(db0), actions);
    var st := Ran(Start(db0), actions);
    hide Inv, AllSound, Exclusive, Ticketed, EnabledRun;
    forall i | 0 <= i < |st.log|
      ensures !st.log[i].Overtaken?
    {
      NothingElsewhere(db0, st, i, walletId);
    }
    ExactIsRun(db0, st.log);
  }

  lemma NothingElsewhere(db0: Database, st: State, i: nat, walletId: Id)
    requires Logged(db0, st.db, st.log) && OnlyOn(st, walletId) && i < |st.log|
    ensures !st.log[i].Overtaken?
  {
    var d := Redone(db0, st.log[..i]);
    FaithfulRows(d, st.db);
    NotElsewhere(d, st.db, st.log[i].step, walletId);
  }

  lemma NotElsewhere(d: Database, last: Database, step: Step, walletId: Id)
    requires RowsKept(d, last) && forall id | id in last.txs :: last.txs[id].walletId == walletId
    requires step.Submit? ==> step.input.walletId == walletId
    ensures !Elsewhere(d, step)
  {
  }

  /**
   Why resolver executions of one row must not overlap: the unlocked branch overwrites
   whatever the row has become. A reversal settled meanwhile would turn REJECTED and drop
   out of the reversal index, while its ledger line stays.
   */
  lemma UnlockedRejectOverwrites(st: State, pid: nat, e: Execution, id: Id)
    requires pid in st.running && st.running[pid] == e && Inv(st.db, {}) && e.work.TheStamp().Usable()
    requires e.first.Some? && e.first.value.id == id && e.first.value.status == PendingReference
    requires e.work.Resolver? && e.WalletId() in st.db.wallets
    requires id in st.db.txs && st.db.txs[id].status == Processed && st.db.txs[id].IsReversal()
    ensures var d := RejectUnlocked(st, pid, e).db;
      && id in d.txs && d.txs[id].status == Rejected
      && d.ledger == st.db.ledger && d.HasEntry(d.txs[id].walletId, id)
      && (forall r | r in d.reversalOf :: d.reversalOf[r] != id)
  {
    hide Inv;
    SettledFacts(st.db, id);
    var d := RejectUnlocked(st, pid, e).db;
    assert d.Ledger(d.txs[id].walletId) == st.db.Ledger(st.db.txs[id].walletId);
  }

  lemma SettledFacts(db: Database, id: Id)
    requires Inv(db, {}) && id in db.txs && db.txs[id].status == Processed && db.txs[id].IsReversal()
    ensures db.HasEntry(db.txs[id].walletId, id) && db.txs[id].id == id
  {
    hide Indexed, Shapes, Reversals, Chains, Announced, Lined, Distinct, OpensFirst, WalletRow;
    assert Moves(db.txs[id]);
  }
}

/**
 Why executions of one row stay apart. Whoever resolves a row has leased it first, and ends
 before the lease does: then no schedule of the statements ever lets two executions of one
 row overlap, and the guard of the machine need not be assumed.
 */
module Leases {
  import opened Wrappers
  import opened Apperr
  import opened DomainMoney
  import opened DomainWagering
  import opened DomainWallet
  import opened DomainEvent
  import opened Postgres
  import opened AppProcess
  import opened AppResolve
  import opened AppOpen
  import opened Invariants
  import opened Settlement
  import opened Openings
  import opened Runs
  import opened Parking
  import opened Locking
  import opened LockRefinement
  import opened Interleavings
  import Overlaps
  import Solo

  /** The right to resolve a row until then. */
  datatype Grant = Grant(id: Id, until: int)

  /** The time, the grants nobody is using, and until when each execution may run. */
  datatype Held = Held(time: int, free: set<Grant>, until: map<nat, int>)

  /** An action, when it happens, and for an arriving resolver the end of the lease it runs under. */
  datatype Timed = Timed(at: int, action: Action, under: int)

  // ----- the discipline -----

  /** Time goes on; nobody runs beyond its lease; a resolver arrives under a lease of its row that is still good. */
  ghost predicate Punctual(st: State, held: Held, m: Timed) {
    && held.time <= m.at
    && (forall q | q in st.running && st.running[q].work.Resolver? :: q in held.until && m.at < held.until[q])
    && match m.action
       case Arrive(_, work) => work.Resolver? ==> Grant(work.txId, m.under) in held.free && m.at < m.under
       case Aside(step) => step.Lease? ==> step.now <= m.at
       case _ => true
  }

  function Grants(ids: set<Id>, until: int): set<Grant> {
    set id | id in ids :: Grant(id, until)
  }

  /** A lease grants its rows; an arrival takes a grant; a death before the commit gives it back for another attempt. */
  ghost function Passed(st: State, held: Held, m: Timed): Held {
    match m.action
    case Arrive(pid, work) =>
      if work.Resolver? then Held(m.at, held.free - {Grant(work.txId, m.under)}, held.until[pid := m.under])
      else held.(time := m.at)
    case Aside(step) =>
      if step.Lease? then held.(time := m.at, free := held.free + Grants(step.ids, step.lockUntil)) else held.(time := m.at)
    case Die(pid) =>
      if pid in st.running && st.running[pid].work.Resolver? && pid in held.until
      then held.(time := m.at, free := held.free + {Grant(st.running[pid].work.txId, held.until[pid])})
      else held.(time := m.at)
    case Advance(_) => held.(time := m.at)
  }

  // ----- what the discipline keeps -----

  /** The row is not due again before then, if it still waits. */
  ghost predicate NotDueBefore(db: Database, id: Id, until: int) {
    id in db.txs && (id in db.retries ==> until <= db.retries[id].nextAttemptAt)
  }

  predicate Executing(e: Execution, id: Id) {
    e.work.Resolver? && e.work.txId == id
  }

  /** Every execution keeps its row from falling due. */
  ghost predicate RunsLeased(db: Database, running: map<nat, Execution>, until: map<nat, int>) {
    forall q | q in running && running[q].work.Resolver? ::
      q in until && NotDueBefore(db, running[q].work.txId, until[q])
  }

  /** So does every grant that is still good. */
  ghost predicate FreeLeased(db: Database, free: set<Grant>, time: int) {
    forall g | g in free :: g.id in db.txs && (time < g.until ==> NotDueBefore(db, g.id, g.until))
  }

  /** No grant is good for a row that is being executed. */
  ghost predicate FreeApart(running: map<nat, Execution>, free: set<Grant>, time: int) {
    forall g, q | g in free && q in running && Executing(running[q], g.id) :: g.until <= time
  }

  /** Of the grants for one row at most one is good. */
  ghost predicate OneGood(free: set<Grant>, time: int) {
    forall g, h | g in free && h in free && g != h && g.id == h.id :: g.until <= time || h.until <= time
  }

  ghost predicate LeaseInv(st: State, held: Held) {
    && RunsLeased(st.db, st.running, held.until) && FreeLeased(st.db, held.free, held.time)
    && FreeApart(st.running, held.free, held.time) && OneGood(held.free, held.time)
  }

  /** Under the discipline the guard of the machine holds by itself. */
  lemma PunctualIsAlone(st: State, held: Held, m: Timed)
    requires LeaseInv(st, held) && Punctual(st, held, m)
    ensures Alone(st, m.action)
  {
    hide RunsLeased, FreeLeased, OneGood;
    if m.action.Arrive? && m.action.work.Resolver? {
      var g := Grant(m.action.work.txId, m.under);
      forall q | q in st.running && st.running[q].work.Resolver?
        ensures st.running[q].work.txId != g.id
      {
        assert Executing(st.running[q], g.id) ==> g.until <= held.time;
      }
    }
  }

  /** Time alone makes no grant good again. */
  lemma TimePasses(st: State, held: Held, at: int)
    requires LeaseInv(st, held) && held.time <= at
    ensures LeaseInv(st, held.(time := at))
  {
    hide NotDueBefore;
  }

  /** Rows but this one keep their due times, and none is lost. */
  ghost predicate DueBeside(db: Database, d: Database, own: Id) {
    forall id | id in db.txs && id != own ::
      && id in d.txs
      && (id in d.retries ==> id in db.retries && d.retries[id].nextAttemptAt == db.retries[id].nextAttemptAt)
  }

  lemma NotDueStays(db: Database, d: Database, own: Id, id: Id, until: int)
    requires DueBeside(db, d, own) && id != own && NotDueBefore(db, id, until)
    ensures NotDueBefore(d, id, until)
  {
  }

  // ----- each action keeps it -----

  lemma ArrivalKeeps(st: State, held: Held, m: Timed)
    requires LeaseInv(st, held) && Punctual(st, held, m) && m.action.Arrive? && Possible(st, m.action)
    ensures LeaseInv(After(st, m.action), Passed(st, held, m))
  {
    hide Prepare, UnusedEntry;
    PunctualIsAlone(st, held, m);
    TimePasses(st, held, m.at);
    hide NotDueBefore;
    var work := m.action.work;
    if work.Resolver? {
      assert FreeLeased(st.db, held.free, held.time);
      assert NotDueBefore(st.db, work.txId, m.under);
    }
  }

  /** Ending leaves the others as they are. */
  lemma EndingKeeps(st: State, held: Held, pid: nat)
    requires LeaseInv(st, held)
    ensures LeaseInv(End(st, pid), held)
  {
    hide NotDueBefore;
  }

  lemma DeathKeeps(db0: Database, st: State, held: Held, m: Timed)
    requires MachineInv(db0, st) && LeaseInv(st, held) && Punctual(st, held, m) && m.action.Die? && Possible(st, m.action)
    ensures LeaseInv(After(st, m.action), Passed(st, held, m))
  {
    hide Inv, Logged, AllSound, Ticketed, Prepare, NotDueBefore;
    TimePasses(st, held, m.at);
    EndingKeeps(st, held.(time := m.at), m.action.pid);
    var e := st.running[m.action.pid];
    if e.work.Resolver? {
      GivenBack(st, held.(time := m.at), m.action.pid);
    }
  }

  lemma GivenBack(st: State, held: Held, pid: nat)
    requires LeaseInv(st, held) && Exclusive(st.running) && pid in st.running && st.running[pid].work.Resolver?
    requires pid in held.until
    ensures LeaseInv(End(st, pid), held.(free := held.free + {Grant(st.running[pid].work.txId, held.until[pid])}))
  {
    var g := Grant(st.running[pid].work.txId, held.until[pid]);
    assert NotDueBefore(st.db, g.id, g.until);
    hide NotDueBefore;
    forall q | q in st.running && q != pid
      ensures !Executing(st.running[q], g.id)
    {
      assert TellApart(st.running[pid], st.running[q]);
    }
    assert Executing(st.running[pid], g.id);
  }

  /** A statement that commits nothing. */
  lemma StatementKeeps(st: State, held: Held, pid: nat)
    requires LeaseInv(st, held) && Possible(st, Advance(pid))
    requires !st.running[pid].phase.Decided? && !st.running[pid].phase.Orphaned?
    ensures LeaseInv(Advanced(st, pid), held)
  {
    hide Advanced, Prepare;
    Overlaps.Progresses(st, pid);
    Solo.SameWork(st, pid);
    hide NotDueBefore;
    if pid !in Advanced(st, pid).running {
      EndingKeeps(st, held, pid);
    } else {
      SameWorkKeeps(st, held, pid, Advanced(st, pid).running[pid]);
    }
  }

  lemma SameWorkKeeps(st: State, held: Held, pid: nat, f: Execution)
    requires LeaseInv(st, held) && pid in st.running && f.work == st.running[pid].work
    ensures LeaseInv(Put(st, pid, f), held)
  {
    hide NotDueBefore;
    assert forall id: Id :: Executing(f, id) == Executing(st.running[pid], id);
  }

  /** No retry row but this one is another, and no row is lost. */
  ghost predicate OwnRetry(db: Database, d: Database, own: Id) {
    (forall id | id in db.txs :: id in d.txs) &&
    forall id | id in d.retries && id != own :: id in db.retries && d.retries[id] == db.retries[id]
  }

  lemma OwnRetryIsDue(db: Database, d: Database, own: Id)
    requires OwnRetry(db, d, own)
    ensures DueBeside(db, d, own) && forall id | id in db.txs :: id in d.txs
  {
  }

  /** What an execution writes, it writes to its own retry row. */
  lemma WritesOwnRetry(db: Database, e: Execution, w: Wallet, tx: WagerTx, res: Resolution)
    requires Written(db, e, w, tx, res).Success?
    ensures OwnRetry(db, Written(db, e, w, tx, res).value, tx.id)
  {
    if res.Final? {
      LandingWritesOwnRetry(Base(db, e.work, tx), tx, w, res.landing, e.work.TheStamp());
      hide Write;
    }
  }

  lemma LandingWritesOwnRetry(db: Database, tx: WagerTx, w: Wallet, l: Landing, s: Stamp)
    ensures Write(db, tx, w, l, s).Success? ==> OwnRetry(db, Write(db, tx, w, l, s).value, tx.id)
  {
    if Marked(tx, w, l, s.now).Success? {
      var t := Marked(tx, w, l, s.now).value;
      MarkedId(tx, w, l, s.now);
      UpdateLeavesRetries(db, t);
      if l.Moved? {
        UpdateLeavesRetries(Posted(db, l.movement), t);
      }
      hide Marked, BalanceAfter, Database.Update;
    }
  }

  lemma UpdateLeavesRetries(db: Database, t: WagerTx)
    ensures match db.Update(t)
      case Failure(_) => true
      case Success(d) => d.retries == db.retries && forall id | id in db.txs :: id in d.txs
  {
    hide Database.IndexWithout, Database.Overwritten;
    if t.id in db.txs {
      var row, index := db.Overwritten(t), db.IndexWithout(t.id);
      if row.status == Processed && row.IsReversal() && row.referenceId.Some? {
        assert row.referenceId.value !in index ==>
          db.Update(t) == Success(db.(txs := db.txs[t.id := row], reversalOf := index[row.referenceId.value := t.id]));
      } else {
        assert db.Update(t) == Success(db.(txs := db.txs[t.id := row], reversalOf := index));
      }
    }
  }

  lemma MarkedId(tx: WagerTx, w: Wallet, l: Landing, now: int)
    requires Marked(tx, w, l, now).Success?
    ensures Marked(tx, w, l, now).value.id == tx.id
  {
  }

  /** After the commit of its execution nobody has a good grant for the row, so its due time is free to move. */
  lemma OthersStayLeased(st: State, held: Held, d: Database, pid: nat)
    requires LeaseInv(st, held) && Exclusive(st.running) && pid in st.running
    requires DueBeside(st.db, d, st.running[pid].work.txId) && (forall id | id in st.db.txs :: id in d.txs)
    requires st.running[pid].work.Request? ==> st.running[pid].work.txId !in st.db.txs
    ensures LeaseInv(End(st, pid).(db := d), held)
  {
    var own := st.running[pid].work.txId;
    EndingKeeps(st, held, pid);
    forall q | q in st.running && q != pid && st.running[q].work.Resolver?
      ensures q in held.until && NotDueBefore(d, st.running[q].work.txId, held.until[q])
    {
      assert TellApart(st.running[pid], st.running[q]);
      NotDueStays(st.db, d, own, st.running[q].work.txId, held.until[q]);
    }
    forall g | g in held.free && held.time < g.until
      ensures NotDueBefore(d, g.id, g.until)
    {
      assert Executing(st.running[pid], g.id) ==> g.until <= held.time;
      NotDueStays(st.db, d, own, g.id, g.until);
    }
    hide NotDueBefore, DueBeside;
  }

  lemma CommitKeepsLeases(db0: Database, st: State, held: Held, pid: nat)
    requires MachineInv(db0, st) && LeaseInv(st, held) && Possible(st, Advance(pid)) && st.running[pid].phase.Decided?
    ensures LeaseInv(Advanced(st, pid), held)
  {
    hide LeaseInv, Inv, Sound, Exclusive, Written, Prepare, EntryOf, DueBeside, MachineInv;
    MachineAt(db0, st, pid);
    var e := st.running[pid];
    var w, tx, res := e.phase.w, e.phase.tx, e.phase.res;
    CommittedRow(st.db, e, w, tx, res);
    if Written(st.db, e, w, tx, res).Success? {
      WritesOwnRetry(st.db, e, w, tx, res);
      OwnRetryIsDue(st.db, Written(st.db, e, w, tx, res).value, tx.id);
      OthersStayLeased(st, held, Written(st.db, e, w, tx, res).value, pid);
      LeaseInvIgnores(End(st, pid).(db := Written(st.db, e, w, tx, res).value), Advanced(st, pid), held);
    } else {
      EndingKeeps(st, held, pid);
      LeaseInvIgnores(End(st, pid), Advanced(st, pid), held);
    }
  }

  lemma CommittedRow(db: Database, e: Execution, w: Wallet, tx: WagerTx, res: Resolution)
    requires Inv(db, {}) && Sound(db, e) && e.phase == Decided(w, tx, res)
    ensures tx.id == e.work.txId && (e.work.Request? ==> tx.id !in db.txs)
  {
    hide Inv, DecisionStands, RetryRead, WalletRead;
    RowFacts(db, e, tx);
  }

  lemma LeaseInvIgnores(a: State, b: State, held: Held)
    requires LeaseInv(a, held) && b.db == a.db && b.running == a.running
    ensures LeaseInv(b, held)
  {
    hide RunsLeased, FreeLeased, FreeApart, OneGood;
  }

  lemma AdvanceKeeps(db0: Database, st: State, held: Held, m: Timed)
    requires MachineInv(db0, st) && LeaseInv(st, held) && Punctual(st, held, m) && m.action.Advance? && Possible(st, m.action)
    ensures LeaseInv(After(st, m.action), Passed(st, held, m))
  {
    hide MachineInv, LeaseInv, Prepare, Advanced;
    var pid := m.action.pid;
    TimePasses(st, held, m.at);
    NeverOrphaned(db0, st, pid);
    if st.running[pid].phase.Decided? {
      CommitKeepsLeases(db0, st, held.(time := m.at), pid);
    } else {
      StatementKeeps(st, held.(time := m.at), pid);
    }
  }

  /** A row that falls due has neither an execution under way nor a grant that is still good. */
  lemma DueIsFree(st: State, held: Held, m: Timed, id: Id)
    requires LeaseInv(st, held) && Punctual(st, held, m) && id in st.db.retries && st.db.retries[id].nextAttemptAt <= m.at
    ensures forall q | q in st.running :: !Executing(st.running[q], id)
    ensures forall g | g in held.free && g.id == id :: g.until <= m.at
  {
    forall q | q in st.running
      ensures !Executing(st.running[q], id)
    {
      assert st.running[q].work.Resolver? ==> NotDueBefore(st.db, st.running[q].work.txId, held.until[q]);
    }
  }

  lemma LeaseKeeps(st: State, held: Held, m: Timed, ids: set<Id>, now: int, until: int)
    requires LeaseInv(st, held) && Punctual(st, held, m) && m.action == Aside(Lease(ids, now, until))
    requires Admissible(st.db, Lease(ids, now, until)) && st.db.retries.Keys <= st.db.txs.Keys
    ensures LeaseInv(st.(db := Leased(st.db, ids, until)), held.(time := m.at, free := held.free + Grants(ids, until)))
  {
    TimePasses(st, held, m.at);
    var d, free := Leased(st.db, ids, until), held.free + Grants(ids, until);
    forall id | id in ids
      ensures forall q | q in st.running :: !Executing(st.running[q], id)
      ensures forall g | g in held.free && g.id == id :: g.until <= m.at
    {
      DueIsFree(st, held, m, id);
    }
    hide Punctual;
    assert FreeApart(st.running, free, m.at) && OneGood(free, m.at);
    assert FreeLeased(d, free, m.at);
    forall q | q in st.running && st.running[q].work.Resolver?
      ensures NotDueBefore(d, st.running[q].work.txId, held.until[q])
    {
      assert Executing(st.running[q], st.running[q].work.txId);
    }
  }

  lemma OpeningKeeps(st: State, held: Held, d: Database)
    requires LeaseInv(st, held) && d.retries == st.db.retries && forall id | id in st.db.txs :: id in d.txs
    ensures LeaseInv(st.(db := d), held)
  {
  }

  lemma RetriesAreOfRows(db: Database)
    requires Inv(db, {})
    ensures db.retries.Keys <= db.txs.Keys
  {
    hide Indexed, Shapes, Reversals, Chains, Booked, Announced;
  }

  lemma OpeningLeavesRetries(db: Database, o: OpenInput, s: Stamp)
    ensures var d := Next(db, OpenFor(o, s)); d.retries == db.retries && forall id | id in db.txs :: id in d.txs
  {
    OpenedAddsRows(db, o, s);
    hide Opened;
  }

  lemma AsideKeepsLeases(db0: Database, st: State, held: Held, m: Timed)
    requires MachineInv(db0, st) && LeaseInv(st, held) && Punctual(st, held, m) && m.action.Aside? && Possible(st, m.action)
    ensures LeaseInv(After(st, m.action), Passed(st, held, m))
  {
    hide Inv, Logged, AllSound, Exclusive, Ticketed, LeaseInv, UnusedEntry, Open;
    RetriesAreOfRows(st.db);
    match m.action.step {
      case Lease(ids, now, until) =>
        LeaseKeeps(st, held, m, ids, now, until);
        LeaseInvIgnores(st.(db := Leased(st.db, ids, until)), After(st, m.action), Passed(st, held, m));
      case OpenFor(o, s) =>
        TimePasses(st, held, m.at);
        OpeningLeavesRetries(st.db, o, s);
        OpeningKeeps(st, held.(time := m.at), Next(st.db, m.action.step));
        LeaseInvIgnores(st.(db := Next(st.db, m.action.step)), After(st, m.action), Passed(st, held, m));
    }
  }

  // ----- every run under the discipline -----

  ghost predicate PunctualRun(st: State, held: Held, ms: seq<Timed>)
    decreases |ms|
  {
    ms != [] ==>
      && Possible(st, ms[0].action) && Punctual(st, held, ms[0])
      && PunctualRun(After(st, ms[0].action), Passed(st, held, ms[0]), ms[1..])
  }

  function Actions(ms: seq<Timed>): seq<Action> {
    if ms == [] then [] else [ms[0].action] + Actions(ms[1..])
  }

  lemma PunctualStep(db0: Database, st: State, held: Held, m: Timed)
    requires MachineInv(db0, st) && LeaseInv(st, held) && Possible(st, m.action) && Punctual(st, held, m)
    ensures Enabled(st, m.action) && MachineInv(db0, After(st, m.action))
    ensures LeaseInv(After(st, m.action), Passed(st, held, m))
  {
    PunctualIsAlone(st, held, m);
    hide MachineInv, LeaseInv, Punctual, Possible, Alone, After, Passed;
    ActionKeeps(db0, st, m.action);
    match m.action {
      case Arrive(_, _) => ArrivalKeeps(st, held, m);
      case Die(_) => DeathKeeps(db0, st, held, m);
      case Advance(_) => AdvanceKeeps(db0, st, held, m);
      case Aside(_) => AsideKeepsLeases(db0, st, held, m);
    }
  }

  lemma {:induction false} PunctualIsEnabled(db0: Database, st: State, held: Held, ms: seq<Timed>)
    requires MachineInv(db0, st) && LeaseInv(st, held) && PunctualRun(st, held, ms)
    ensures EnabledRun(st, Actions(ms))
    decreases |ms|
  {
    if ms != [] {
      hide MachineInv, LeaseInv, Punctual, Possible, Alone, After, Passed;
      PunctualStep(db0, st, held, ms[0]);
      PunctualIsEnabled(db0, After(st, ms[0].action), Passed(st, held, ms[0]), ms[1..]);
      assert Actions(ms)[0] == ms[0].action && Actions(ms)[1..] == Actions(ms[1..]);
    }
  }

  /**
   Leases suffice. Whatever the schedule, if every resolver execution arrives under a lease of
   its row and is over before that lease ends, then at no moment are two executions of one
   row under way, and the schedule is one of the guarded machine's: all that is proved of
   those holds of it.
   */
  lemma LeasesKeepApart(db0: Database, time: int, ms: seq<Timed>)
    requires Inv(db0, {}) && PunctualRun(Start(db0), Held(time, {}, map[]), ms)
    ensures EnabledRun(Start(db0), Actions(ms))
    ensures var running := Ran(Start(db0), Actions(ms)).running;
      forall p, q | p in running && q in running && p != q && running[p].work.Resolver? && running[q].work.Resolver? ::
        running[p].work.txId != running[q].work.txId
  {
    StartIsFine(db0);
    PunctualIsEnabled(db0, Start(db0), Held(time, {}, map[]), ms);
    RanKeeps(db0, Start(db0), Actions(ms));
    var st := Ran(Start(db0), Actions(ms));
    hide Inv, Logged, AllSound, Ticketed, EnabledRun, Ran, PunctualRun;
    forall p, q | p in st.running && q in st.running && p != q && st.running[p].work.Resolver? && st.running[q].work.Resolver?
      ensures st.running[p].work.txId != st.running[q].work.txId
    {
      assert TellApart(st.running[p], st.running[q]);
    }
  }
}

/**
 Every serial run, supplied with new UUIDs, is one of the machine's schedules: what is proved
 of all schedules is proved of all runs, and what a run shows to happen does happen.
 */
module Schedules {
  import opened Wrappers
  import opened Apperr
  import opened DomainMoney
  import opened DomainWagering
  import opened DomainWallet
  import opened DomainEvent
  import opened Postgres
  import opened AppProcess
  import opened AppResolve
  import opened AppOpen
  import opened Invariants
  import opened Settlement
  import opened Runs
  import opened Locking
  import opened LockRefinement
  import opened Interleavings
  import opened Solo

  /** The UUIDs of the step are new: no row, no wallet and no ledger line has them. */
  ghost predicate Supplied(db: Database, step: Step) {
    && Admissible(db, step)
    && (step.Submit? ==> step.txId !in db.txs)
    && (!step.Lease? ==> UnusedEntry(db, step.s.ids.entry))
  }

  ghost predicate SuppliedRun(db: Database, steps: seq<Step>)
    decreases |steps|
  {
    steps != [] ==> Supplied(db, steps[0]) && SuppliedRun(Next(db, steps[0]), steps[1..])
  }

  /** Advancing one execution until it is gone is a schedule. */
  lemma {:induction false} FinishIsSchedule(st: State, pid: nat, n: nat) returns (actions: seq<Action>)
    requires pid in st.running ==> Prepared(st.running[pid].work)
    ensures EnabledRun(st, actions) && Ran(st, actions) == Finish(st, pid, n)
    ensures |actions| <= n && forall a | a in actions :: a == Advance(pid)
    decreases n
  {
    hide Prepare, Advanced;
    if n == 0 || pid !in st.running {
      actions := [];
    } else {
      SameWork(st, pid);
      var rest := FinishIsSchedule(Advanced(st, pid), pid, n - 1);
      actions := [Advance(pid)] + rest;
      assert actions[1..] == rest && After(st, actions[0]) == Advanced(st, pid);
    }
  }

  /** One execution that has arrived, to its end. */
  lemma WorkEnds(st: State, pid: nat, work: Work) returns (actions: seq<Action>)
    requires Inv(st.db, {}) && Unobstructed(st, pid) && Prepared(work) && (work.Request? ==> work.txId !in st.db.wallets)
    ensures var arrived := Put(st, pid, Starting(work));
      EnabledRun(arrived, actions) && Gone(st, Ran(arrived, actions), pid, Next(st.db, work.AsStep()))
  {
    hide Inv, Unobstructed, Gone, Prepare, Next, Finish, EnabledRun, Ran;
    WorkAlone(st, pid, work);
    actions := FinishIsSchedule(Put(st, pid, Starting(work)), pid, 7);
  }

  /** One execution from its arrival to its end, nobody else holding a lock. */
  lemma WorkIsSchedule(st: State, pid: nat, work: Work) returns (actions: seq<Action>)
    requires Inv(st.db, {}) && Unobstructed(st, pid) && Enabled(st, Arrive(pid, work))
    ensures EnabledRun(st, actions) && Gone(st, Ran(st, actions), pid, Next(st.db, work.AsStep()))
  {
    hide Inv, Unobstructed, Gone, Prepare, Next;
    var rest := WorkEnds(st, pid, work);
    actions := [Arrive(pid, work)] + rest;
    assert actions[1..] == rest && After(st, actions[0]) == Put(st, pid, Starting(work));
  }

  /** One serial step, nothing else under way. */
  lemma StepIsSchedule(st: State, step: Step) returns (actions: seq<Action>)
    requires Inv(st.db, {}) && st.running == map[] && Supplied(st.db, step)
    ensures EnabledRun(st, actions)
    ensures Ran(st, actions).db == Next(st.db, step) && Ran(st, actions).running == map[]
  {
    hide Inv, Next, Prepare, Open, UnusedEntry;
    assert Unobstructed(st, 0);
    match step {
      case Submit(input, txId, s) =>
        if Prepare(input, txId, s.now).Success? {
          actions := WorkIsSchedule(st, 0, Request(input, txId, s));
          assert st.running - {0} == map[];
        } else {
          UnpreparedIsIdle(st.db, input, txId, s);
          actions := [];
        }
      case Retried(txId, max, s) =>
        actions := WorkIsSchedule(st, 0, Resolver(txId, max, s));
        assert st.running - {0} == map[];
      case _ =>
        actions := [Aside(step)];
        assert actions[1..] == [];
    }
  }

  lemma UnpreparedIsIdle(db: Database, input: WagerInput, txId: Id, s: Stamp)
    requires Prepare(input, txId, s.now).Failure?
    ensures Next(db, Submit(input, txId, s)) == db
  {
  }

  /** One step after the other. */
  lemma {:induction false} RunIsSchedule(st: State, steps: seq<Step>) returns (actions: seq<Action>)
    requires Inv(st.db, {}) && st.running == map[] && SuppliedRun(st.db, steps)
    ensures EnabledRun(st, actions)
    ensures Ran(st, actions).db == Run(st.db, steps) && Ran(st, actions).running == map[]
    decreases |steps|
  {
    actions := [];
    if steps != [] {
      hide Inv, Next, Enabled, EnabledRun, Ran, UnusedEntry;
      StepKeeps(st.db, steps[0]);
      var first := StepIsSchedule(st, steps[0]);
      var rest := RunIsSchedule(Ran(st, first), steps[1..]);
      RanConcat(st, first, rest);
      actions := first + rest;
    } else {
      hide Inv, Enabled;
    }
  }
}

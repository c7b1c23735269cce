/**
 The interleaved machine never gets stuck: whatever schedule came before, the executions under
 way can all be brought to their end, without a death and without anyone new.
 */
module Progress {
  import opened Wrappers
  import opened DomainMoney
  import opened DomainWagering
  import opened DomainWallet
  import opened Postgres
  import opened AppProcess
  import opened AppResolve
  import opened Invariants
  import opened Settlement
  import opened Runs
  import opened Locking
  import opened LockRefinement
  import opened Interleavings
  import opened Solo
  import opened Schedules

  /** How many statements an execution has left at most. */
  function Left(phase: Phase): nat {
    match phase
    case Fresh => 7
    case Unclaimed => 6
    case Waiting => 5
    case Holding(_) => 4
    case Entered(_, _) => 3
    case Seen(_, _, _) => 2
    case Orphaned => 1
    case Decided(_, _, _) => 1
  }

  /** Nobody is in its way: it has all it needs, or nobody else has keys in flight, or nobody else has a lock. */
  ghost predicate Clear(st: State, pid: nat)
    requires pid in st.running
  {
    || st.running[pid].phase.InFlight()
    || (st.running[pid].phase.Holding? && forall q | q in st.running && q != pid :: !st.running[q].phase.InFlight())
    || Unobstructed(st, pid)
  }

  /** An execution that is clear gets one statement further, and stays clear. */
  lemma ClearAdvances(st: State, pid: nat)
    requires pid in st.running && Prepared(st.running[pid].work) && Clear(st, pid)
    ensures var after := Advanced(st, pid);
      || after.running == st.running - {pid}
      || (&& pid in after.running && after.running == st.running[pid := after.running[pid]]
          && Left(after.running[pid].phase) < Left(st.running[pid].phase) && Clear(after, pid))
  {
    hide Prepare, Written, EntryOf, Decision, ReferenceOf, Base, Write;
    var e := st.running[pid];
    if e.phase.Waiting? {
      NotLocked(st, pid, e.WalletId());
    }
    if e.phase.Holding? && e.work.Request? {
      KeysAreFree(st, pid, e.work.input);
    }
    hide Locked, Claimed;
  }

  lemma KeysAreFree(st: State, pid: nat, input: WagerInput)
    requires forall q | q in st.running && q != pid :: !st.running[q].phase.InFlight()
    ensures !Claimed(st, pid, input)
  {
  }

  lemma {:induction false} ClearFinishes(st: State, pid: nat, n: nat)
    requires pid in st.running && Prepared(st.running[pid].work) && Clear(st, pid) && Left(st.running[pid].phase) <= n
    ensures Finish(st, pid, n).running == st.running - {pid}
    decreases n
  {
    hide Clear, Prepare, Advanced;
    var after := Advanced(st, pid);
    ClearAdvances(st, pid);
    FinishStep(st, pid, n);
    if pid in after.running {
      ClearFinishes(after, pid, n - 1);
      assert st.running[pid := after.running[pid]] - {pid} == st.running - {pid};
    } else {
      FinishGone(after, pid, n - 1);
    }
  }

  /** Somebody is always clear. */
  lemma SomebodyIsClear(st: State) returns (pid: nat)
    requires st.running != map[]
    ensures pid in st.running && Clear(st, pid)
  {
    if q :| q in st.running && st.running[q].phase.InFlight() {
      pid := q;
    } else if q :| q in st.running && st.running[q].phase.Holding? {
      pid := q;
    } else {
      pid :| pid in st.running;
    }
  }

  /** Everybody under way can finish, in at most seven statements each. */
  lemma {:induction false} EverybodyFinishes(st: State) returns (actions: seq<Action>)
    requires forall p | p in st.running :: Prepared(st.running[p].work)
    ensures EnabledRun(st, actions) && Ran(st, actions).running == map[]
    ensures |actions| <= 7 * |st.running| && forall a | a in actions :: a.Advance?
    decreases |st.running|
  {
    actions := [];
    if st.running != map[] {
      hide Prepare, EnabledRun, Ran, Clear;
      var pid := SomebodyIsClear(st);
      ClearFinishes(st, pid, 7);
      var first := FinishIsSchedule(st, pid, 7);
      var next := Ran(st, first);
      assert |st.running| == |next.running| + 1 by {
        assert st.running.Keys == next.running.Keys + {pid};
      }
      var rest := EverybodyFinishes(next);
      RanConcat(st, first, rest);
      actions := first + rest;
    }
  }

  /** By statements alone everybody under way comes to an end, in at most seven each. */
  ghost predicate BringsToEnd(st: State, more: seq<Action>) {
    && EnabledRun(st, more) && Ran(st, more).running == map[]
    && |more| <= 7 * |st.running| && forall a | a in more :: a.Advance?
  }

  /** No schedule ends in a deadlock: after any of them some continuation brings every execution to its end. */
  lemma NeverStuck(db0: Database, actions: seq<Action>)
    requires Inv(db0, {}) && EnabledRun(Start(db0), actions)
    ensures exists more: seq<Action> :: BringsToEnd(Ran(Start(db0), actions), more)
  {
    hide Inv, EnabledRun, Ran, MachineInv, Prepare;
    StartIsFine(db0);
    RanKeeps(db0, Start(db0), actions);
    var st := Ran(Start(db0), actions);
    forall p | p in st.running
      ensures Prepared(st.running[p].work)
    {
      MachineAt(db0, st, p);
      SoundIsPrepared(st.db, st.running[p]);
    }
    var more := EverybodyFinishes(st);
    assert BringsToEnd(st, more);
  }

  lemma SoundIsPrepared(db: Database, e: Execution)
    requires Sound(db, e)
    ensures Prepared(e.work)
  {
  }
}

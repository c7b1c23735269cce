/**
 Parked reversals in every interleaving: each committed execution of a row, also one that
 missed its reference, uses up an attempt or settles the row, and nothing else touches its
 attempts. So by its last attempt a row is terminal, whatever the schedule.
 */
module Attempts {
  import opened Wrappers
  import opened Apperr
  import opened DomainMoney
  import opened DomainWagering
  import opened DomainWallet
  import opened Postgres
  import opened AppProcess
  import opened AppResolve
  import opened Invariants
  import opened Settlement
  import opened Runs
  import opened History
  import opened Parking
  import Commits
  import Leases
  import Overlaps
  import Answers
  import Conservation
  import Replays
  import opened Locking
  import opened LockRefinement
  import opened Interleavings

  predicate Tries(entry: Entry, id: Id) {
    entry.step.Retried? && entry.step.txId == id
  }

  /** How many committed executions of this row the log has. */
  function Tried(log: seq<Entry>, id: Id): nat {
    if log == [] then 0 else Tried(log[..|log| - 1], id) + (if Tries(log[|log| - 1], id) then 1 else 0)
  }

  /** The row is terminal, or it waits with that many attempts used. */
  ghost predicate Counted(d: Database, id: Id, attempts: int) {
    || (id in d.txs && d.txs[id].status.IsTerminal())
    || (IsParked(d, id) && id in d.retries && d.retries[id].attempts == attempts)
  }

  // ----- one commit -----

  /** A commit that saw its reference is the resolver's step at that moment. */
  lemma CommitIsResolve(db: Database, e: Execution, w: Wallet, tx: WagerTx, res: Resolution)
    requires Inv(db, {}) && Sound(db, e) && e.work.Resolver? && e.phase == Decided(w, tx, res)
    requires !EntryOf(db, e, w, tx, res).Overtaken?
    ensures Written(db, e, w, tx, res).Success?
    ensures Resolve(db, e.work.txId, e.work.max, e.work.s) == Success(Written(db, e, w, tx, res).value)
  {
    hide Inv, Justified, Outcome, Resolve, ResolutionFor, Written, Commits.Faithful, Beside, Landable, Rescheduled;
    hide Decision, Now, Foreign;
    ResolverCommits(db, e, w, tx, res);
    ParkedRow(db, e.work.txId);
    ResolverNow(db, e, w, tx);
    ResolveCases(db, e.work.txId, e.work.max, e.work.s);
  }

  /** One that did not see it tries again, or gives up when its attempts are used. */
  lemma UnawareCounts(db: Database, id: Id, max: int, s: Stamp)
    requires Inv(db, {}) && IsParked(db, id)
    ensures id in db.retries
    ensures var d := Unaware(db, Retried(id, max, s));
      || (id in d.txs && d.txs[id].status.IsTerminal())
      || (d == db.(retries := db.retries[id := Rescheduled(db.retries[id], s.now)]) && !Exhausted(db.retries[id], max, s.now))
  {
    hide Inv, Write, Landable, FinalOutbox, FinalRetries;
    ParkedRow(db, id);
    var tx := db.txs[id];
    var w := db.wallets[tx.walletId];
    RefusedIsJustified(db, tx, w, ReferenceNotFound, s);
    LandingKeeps(db, tx, w, Refused(ReferenceNotFound), s, {});
  }

  /** The commit of an execution of the row. */
  lemma OwnCommitCounts(db: Database, e: Execution, w: Wallet, tx: WagerTx, res: Resolution)
    requires Inv(db, {}) && Sound(db, e) && e.work.Resolver? && e.phase == Decided(w, tx, res)
    ensures Written(db, e, w, tx, res).Success? && e.work.txId in db.retries
    ensures var d, id := Written(db, e, w, tx, res).value, e.work.txId;
      || (id in d.txs && d.txs[id].status.IsTerminal())
      || (d == db.(retries := db.retries[id := Rescheduled(db.retries[id], e.work.s.now)]) &&
          !Exhausted(db.retries[id], e.work.max, e.work.s.now))
  {
    hide Inv, Written, Resolve, Commits.Faithful, Beside, Unaware, EntryOf, Rescheduled;
    ResolverParked(db, e, w, tx, res);
    ResolverCommits(db, e, w, tx, res);
    UnawareCounts(db, e.work.txId, e.work.max, e.work.s);
    if !EntryOf(db, e, w, tx, res).Overtaken? {
      CommitIsResolve(db, e, w, tx, res);
      OneExecution(db, e.work.txId, e.work.max, e.work.s);
    } else {
      EntryIs(db, e, w, tx, res);
    }
  }

  lemma ResolverParked(db: Database, e: Execution, w: Wallet, tx: WagerTx, res: Resolution)
    requires Sound(db, e) && e.work.Resolver? && e.phase == Decided(w, tx, res)
    ensures IsParked(db, e.work.txId) && e.work.s.Usable() && e.work.txId in db.retries
  {
  }

  lemma EntryIs(db: Database, e: Execution, w: Wallet, tx: WagerTx, res: Resolution)
    ensures EntryOf(db, e, w, tx, res).step == e.work.AsStep() && !EntryOf(db, e, w, tx, res).Apart?
  {
    hide Now;
  }

  /** Any other commit. */
  lemma OtherCommitCounts(db: Database, e: Execution, w: Wallet, tx: WagerTx, res: Resolution, id: Id)
    requires Inv(db, {}) && Sound(db, e) && e.phase == Decided(w, tx, res)
    requires IsParked(db, id) && (e.work.Request? || e.work.txId != id)
    ensures Written(db, e, w, tx, res).Success? && id in db.retries
    ensures Counted(Written(db, e, w, tx, res).value, id, db.retries[id].attempts)
    ensures IsParked(Written(db, e, w, tx, res).value, id)
  {
    hide Inv, Written, WalletsBeside, KeysBeside, Redo, EntryOf, Sound, Landable;
    ParkedRow(db, id);
    if e.work.Request? {
      RequestCommits(db, e, w, tx, res);
    } else {
      ResolverCommits(db, e, w, tx, res);
    }
    var d := Written(db, e, w, tx, res).value;
    FaithfulHere(db, d);
    RowStatus(d, id);
    Leases.CommittedRow(db, e, w, tx, res);
    Leases.WritesOwnRetry(db, e, w, tx, res);
  }

  // ----- one action -----

  /** Every execution of the row that these entries log is configured with at most this maximum. */
  ghost predicate Configured(log: seq<Entry>, from: nat, id: Id, max: int) {
    forall i | from <= i < |log| && Tries(log[i], id) :: log[i].step.max <= max
  }

  lemma OneMoreTried(log: seq<Entry>, entry: Entry, id: Id)
    ensures Tried(log + [entry], id) == Tried(log, id) + (if Tries(entry, id) then 1 else 0)
  {
    assert (log + [entry])[..|log|] == log;
  }

  /** The count since the row was seen with these attempts. */
  ghost predicate CountedOn(st: State, after: State, id: Id, max: int)
    requires id in st.db.retries
  {
    var used := Tried(after.log, id) - Tried(st.log, id);
    && used >= 0
    && Counted(after.db, id, st.db.retries[id].attempts + used)
    && (used > 0 && IsParked(after.db, id) && id in after.db.retries ==> after.db.retries[id].attempts < max)
  }

  lemma QuietStatement(st: State, pid: nat)
    requires Possible(st, Advance(pid)) && !st.running[pid].phase.Decided? && !st.running[pid].phase.Orphaned?
    ensures Advanced(st, pid).db == st.db && Advanced(st, pid).log == st.log
  {
    hide Prepare, Locked, Claimed, Decision, ReferenceOf, Base, PendingOf;
  }

  lemma CommitCounts(db0: Database, st: State, pid: nat, id: Id, max: int)
    requires MachineInv(db0, st) && Possible(st, Advance(pid)) && st.running[pid].phase.Decided?
    requires IsParked(st.db, id) && id in st.db.retries && Configured(Advanced(st, pid).log, |st.log|, id, max)
    ensures CountedOn(st, Advanced(st, pid), id, max)
  {
    hide MachineInv, Sound, Written, EntryOf, Inv, Prepare, Tried;
    MachineAt(db0, st, pid);
    var e := st.running[pid];
    var w, tx, res := e.phase.w, e.phase.tx, e.phase.res;
    var entry := EntryOf(st.db, e, w, tx, res);
    EntryIs(st.db, e, w, tx, res);
    OneMoreTried(st.log, entry, id);
    if e.work.Resolver? && e.work.txId == id {
      OwnCommitCounts(st.db, e, w, tx, res);
      assert (st.log + [entry])[|st.log|] == entry;
    } else {
      OtherCommitCounts(st.db, e, w, tx, res, id);
    }
  }

  lemma AsideCounts(db0: Database, st: State, step: Step, id: Id, max: int)
    requires MachineInv(db0, st) && Possible(st, Aside(step)) && IsParked(st.db, id) && id in st.db.retries
    ensures CountedOn(st, After(st, Aside(step)), id, max)
  {
    hide Inv, Logged, AllSound, Exclusive, Ticketed, Next, UnusedEntry, Tried;
    OthersDoNotCount(st.db, step, id);
    OneMoreTried(st.log, Entry.Apart(step), id);
  }

  lemma ActionCounts(db0: Database, st: State, a: Action, id: Id, max: int)
    requires MachineInv(db0, st) && Enabled(st, a) && IsParked(st.db, id) && id in st.db.retries
    requires Configured(After(st, a).log, |st.log|, id, max)
    ensures CountedOn(st, After(st, a), id, max)
  {
    hide MachineInv, Prepare, UnusedEntry, Advanced, Tried, Configured;
    match a {
      case Arrive(_, _) =>
      case Die(_) =>
      case Aside(step) => AsideCounts(db0, st, step, id, max);
      case Advance(pid) =>
        NeverOrphaned(db0, st, pid);
        if st.running[pid].phase.Decided? {
          CommitCounts(db0, st, pid, id, max);
        } else {
          QuietStatement(st, pid);
        }
    }
  }

  // ----- any schedule -----

  /** The log only grows. */
  lemma {:induction false} RanLog(db0: Database, st: State, actions: seq<Action>)
    requires MachineInv(db0, st) && EnabledRun(st, actions)
    ensures st.log <= Ran(st, actions).log
    decreases |actions|
  {
    if actions != [] {
      hide MachineInv, Possible, Alone, After;
      ActionKeeps(db0, st, actions[0]);
      LogOnlyGrows(db0, st, actions[0]);
      RanLog(db0, After(st, actions[0]), actions[1..]);
      PrefixTransitive(st.log, After(st, actions[0]).log, Ran(st, actions).log);
    }
  }

  lemma PrefixTransitive(a: seq<Entry>, b: seq<Entry>, c: seq<Entry>)
    requires (a == b || (|b| == |a| + 1 && b[..|a|] == a)) && b <= c
    ensures a <= c && |a| <= |b|
  {
    assert c[..|a|] == b[..|a|];
  }

  lemma ConfiguredParts(a: seq<Entry>, b: seq<Entry>, c: seq<Entry>, id: Id, max: int)
    requires |a| <= |b| && b <= c && Configured(c, |a|, id, max)
    ensures Configured(b, |a|, id, max) && Configured(c, |b|, id, max)
  {
    forall i | |a| <= i < |b| && Tries(b[i], id)
      ensures b[i].step.max <= max
    {
      assert c[i] == b[i];
    }
  }

  /** Tried never falls along a prefix. */
  lemma {:induction false} TriedGrows(a: seq<Entry>, b: seq<Entry>, id: Id)
    requires a <= b
    ensures Tried(a, id) <= Tried(b, id)
    decreases |b|
  {
    if |a| < |b| {
      TriedGrows(a, b[..|b| - 1], id);
    } else {
      assert a == b;
    }
  }

  /**
   Attempts count executions in every schedule: after any of them a row that was parked is
   terminal, or waits with exactly one attempt more for each of its executions committed
   since, overtaken ones included, and below the maximum.
   */
  lemma {:induction false} ScheduleCounts(db0: Database, st: State, actions: seq<Action>, id: Id, max: int)
    requires MachineInv(db0, st) && EnabledRun(st, actions) && IsParked(st.db, id) && id in st.db.retries
    requires Configured(Ran(st, actions).log, |st.log|, id, max)
    ensures CountedOn(st, Ran(st, actions), id, max)
    decreases |actions|
  {
    hide MachineInv, Possible, Alone, After, Configured, Counted, IsParked;
    var last := Ran(st, actions);
    if actions == [] {
      CountedNow(st, id, max);
    } else {
      var next := After(st, actions[0]);
      ActionKeeps(db0, st, actions[0]);
      LogOnlyGrows(db0, st, actions[0]);
      RanLog(db0, next, actions[1..]);
      PrefixTransitive(st.log, next.log, last.log);
      ConfiguredParts(st.log, next.log, last.log, id, max);
      ActionCounts(db0, st, actions[0], id, max);
      TriedGrows(next.log, last.log, id);
      if Waits(next.db, id) {
        ScheduleCounts(db0, next, actions[1..], id, max);
        CountsAddUp(st, next, last, id, max);
      } else {
        TerminalStays(db0, st, next, actions[1..], id, max);
      }
    }
  }

  ghost predicate Waits(db: Database, id: Id) {
    IsParked(db, id) && id in db.retries
  }

  lemma CountedNow(st: State, id: Id, max: int)
    requires IsParked(st.db, id) && id in st.db.retries
    ensures CountedOn(st, st, id, max)
  {
  }

  lemma CountsAddUp(st: State, next: State, last: State, id: Id, max: int)
    requires id in st.db.retries && CountedOn(st, next, id, max) && Waits(next.db, id) && CountedOn(next, last, id, max)
    ensures CountedOn(st, last, id, max)
  {
    hide Tried;
    assert !next.db.txs[id].status.IsTerminal();
  }

  lemma TerminalStays(db0: Database, st: State, next: State, actions: seq<Action>, id: Id, max: int)
    requires MachineInv(db0, next) && EnabledRun(next, actions) && id in st.db.retries
    requires CountedOn(st, next, id, max) && !Waits(next.db, id)
    requires Tried(next.log, id) <= Tried(Ran(next, actions).log, id)
    ensures CountedOn(st, Ran(next, actions), id, max)
  {
    hide MachineInv, EnabledRun, Ran, Tried, Commits.Faithful;
    RanIsFaithful(db0, next, actions);
    FaithfulRow(next.db, Ran(next, actions).db, id);
  }

  lemma FaithfulRow(db: Database, d: Database, id: Id)
    requires Commits.Faithful(db, d) && id in db.txs && db.txs[id].status.IsTerminal()
    ensures id in d.txs && d.txs[id] == db.txs[id]
  {
    hide Inv, Evolves;
    RowsForwardAt(db, d, id);
  }

  /**
   Termination in every schedule: once as many executions of a parked row have committed as
   it had attempts left, it is terminal and no longer retried, whatever interleaves, whatever
   it refers to, cycles included.
   */
  lemma SettlesInEverySchedule(db0: Database, before: seq<Action>, after: seq<Action>, id: Id, max: int)
    requires Inv(db0, {}) && EnabledRun(Start(db0), before) && EnabledRun(Ran(Start(db0), before), after)
    requires var st := Ran(Start(db0), before); IsParked(st.db, id) && id in st.db.retries
    requires var st, last := Ran(Start(db0), before), Ran(Ran(Start(db0), before), after);
      && Configured(last.log, |st.log|, id, max)
      && var used := Tried(last.log, id) - Tried(st.log, id); used > 0 && used >= max - st.db.retries[id].attempts
    ensures var d := Ran(Ran(Start(db0), before), after).db;
      id in d.txs && d.txs[id].status.IsTerminal() && id !in d.retries
  {
    hide Inv, MachineInv, EnabledRun, Ran, Configured, Tried;
    StartIsFine(db0);
    RanKeeps(db0, Start(db0), before);
    var st := Ran(Start(db0), before);
    RanKeeps(db0, st, after);
    ScheduleCounts(db0, st, after, id, max);
    MachineRow(db0, Ran(st, after), id);
  }

  lemma MachineRow(db0: Database, st: State, id: Id)
    requires MachineInv(db0, st) && id in st.db.txs
    ensures st.db.txs[id].status.IsTerminal() ==> id !in st.db.retries
  {
    hide Inv, Logged, AllSound, Exclusive, Ticketed;
    RowStatus(st.db, id);
  }

  // ----- nobody gives up early -----

  /** The deadline has passed, or this attempt is the last. */
  predicate UsedUp(attempts: int, expiresAt: int, max: int, now: int) {
    now > expiresAt || attempts + 1 >= max
  }

  /** An execution that missed its reference is final only when it has to be. */
  lemma UnawareGivesUp(db: Database, id: Id, max: int, s: Stamp)
    requires Inv(db, {}) && IsParked(db, id) && id in db.retries
    requires !UsedUp(db.retries[id].attempts, db.retries[id].expiresAt, max, s.now)
    ensures IsParked(Unaware(db, Retried(id, max, s)), id)
  {
    hide Inv, Write, Landable, Rescheduled;
    ParkedRow(db, id);
  }

  /**
   The commit of an execution, whatever interleaved. If it leaves the row final although the
   reference has not settled, or with the code for that, then the deadline has passed or this
   was the last attempt.
   */
  lemma GivesUpLate(db: Database, e: Execution, w: Wallet, tx: WagerTx, res: Resolution)
    requires Inv(db, {}) && Sound(db, e) && e.work.Resolver? && e.phase == Decided(w, tx, res)
    ensures e.work.txId in db.retries && Written(db, e, w, tx, res).Success?
    ensures var d, id, retry := Written(db, e, w, tx, res).value, e.work.txId, db.retries[e.work.txId];
      && id in d.txs && id in db.txs
      && (!IsParked(d, id) && (!Answers.ReferenceSettled(db, db.txs[id]) || d.txs[id].failureCode == Some(ReferenceNotFound)) ==>
            UsedUp(retry.attempts, retry.expiresAt, e.work.max, e.work.s.now))
  {
    hide Inv, Written, Resolve, Commits.Faithful, Beside, Unaware, EntryOf, Answers.ReferenceSettled, Answers.PauseAfter, Answers.Told;
    var id := e.work.txId;
    ResolverParked(db, e, w, tx, res);
    ResolverCommits(db, e, w, tx, res);
    FaithfulRows(db, Written(db, e, w, tx, res).value);
    var retry := db.retries[id];
    if !UsedUp(retry.attempts, retry.expiresAt, e.work.max, e.work.s.now) {
      if EntryOf(db, e, w, tx, res).Overtaken? {
        EntryIs(db, e, w, tx, res);
        UnawareGivesUp(db, id, e.work.max, e.work.s);
      } else {
        CommitIsResolve(db, e, w, tx, res);
        MaxIsConfigured(e.work.max, retry);
        Answers.ExecutionExactly(db, id, e.work.max, e.work.s);
      }
    }
  }

  lemma MaxIsConfigured(max: int, retry: Retry)
    requires retry.attempts + 1 < max
    ensures retry.attempts >= 0 ==> MaxAttempts(max) == max
  {
  }

  /** The action that makes a parked row final is the commit of one of its own executions. */
  lemma FinalByItsOwn(db0: Database, st: State, a: Action, id: Id)
    requires MachineInv(db0, st) && Enabled(st, a) && IsParked(st.db, id) && !IsParked(After(st, a).db, id)
    ensures id in st.db.retries && a.Advance? && st.running[a.pid].phase.Decided?
    ensures st.running[a.pid].work.Resolver? && st.running[a.pid].work.txId == id
  {
    hide MachineInv, Prepare, UnusedEntry, Next, Written, EntryOf;
    MachineParked(db0, st, id);
    match a {
      case Arrive(_, _) =>
      case Die(_) =>
      case Aside(step) =>
        MachineHasInv(db0, st);
        OthersDoNotCount(st.db, step, id);
      case Advance(pid) =>
        NeverOrphaned(db0, st, pid);
        if st.running[pid].phase.Decided? {
          MachineAt(db0, st, pid);
          OnlyOwn(st, pid, id);
        } else {
          QuietStatement(st, pid);
        }
    }
  }

  lemma MachineHasInv(db0: Database, st: State)
    requires MachineInv(db0, st)
    ensures Inv(st.db, {})
  {
    hide Inv, Logged, AllSound, Exclusive, Ticketed;
  }

  lemma MachineParked(db0: Database, st: State, id: Id)
    requires MachineInv(db0, st) && IsParked(st.db, id)
    ensures id in st.db.retries
  {
    hide Inv, Logged, AllSound, Exclusive, Ticketed;
    RowStatus(st.db, id);
  }

  lemma OnlyOwn(st: State, pid: nat, id: Id)
    requires Inv(st.db, {}) && pid in st.running && Sound(st.db, st.running[pid]) && st.running[pid].phase.Decided?
    requires Possible(st, Advance(pid)) && IsParked(st.db, id) && !IsParked(Advanced(st, pid).db, id)
    ensures st.running[pid].work.Resolver? && st.running[pid].work.txId == id
  {
    hide Inv, Sound, Written, Prepare, EntryOf;
    var e := st.running[pid];
    if e.work.Request? || e.work.txId != id {
      OtherCommitCounts(st.db, e, e.phase.w, e.phase.tx, e.phase.res, id);
    }
  }

  /** The i-th entry is an execution of this row, and by then its deadline had passed or its attempts were used up. */
  ghost predicate LastTry(st: State, log: seq<Entry>, id: Id, i: nat)
    requires id in st.db.retries
  {
    && |st.log| <= i < |log| && Tries(log[i], id)
    && UsedUp(st.db.retries[id].attempts + Tried(log[..i], id) - Tried(st.log, id), st.db.retries[id].expiresAt,
              log[i].step.max, log[i].step.s.now)
  }

  /** The row has been given up because its reference was not found. */
  predicate GivenUp(db: Database, id: Id) {
    id in db.txs && db.txs[id].status == Rejected && db.txs[id].failureCode == Some(ReferenceNotFound)
  }

  /**
   Nobody gives up early, in any schedule: a reversal that ends as REFERENCE_NOT_FOUND was
   ended by a committed execution after its deadline, or by the one that used its last attempt.
   */
  lemma {:induction false} GivenUpLate(db0: Database, st: State, actions: seq<Action>, id: Id)
    requires MachineInv(db0, st) && EnabledRun(st, actions) && IsParked(st.db, id) && id in st.db.retries
    requires GivenUp(Ran(st, actions).db, id)
    ensures exists i: nat :: LastTry(st, Ran(st, actions).log, id, i)
    decreases |actions|
  {
    hide MachineInv, Possible, Alone, After, Tried, LastTry;
    if actions != [] {
      var next, last := After(st, actions[0]), Ran(st, actions);
      ActionKeeps(db0, st, actions[0]);
      LogOnlyGrows(db0, st, actions[0]);
      RanLog(db0, next, actions[1..]);
      if IsParked(next.db, id) {
        MachineParked(db0, next, id);
        GivenUpLate(db0, next, actions[1..], id);
        var i: nat :| LastTry(next, last.log, id, i);
        StillCounts(db0, st, actions[0], id);
        LaterTry(st, next, last.log, id, i);
      } else {
        RanIsFaithful(db0, next, actions[1..]);
        ThisIsLast(db0, st, actions[0], last, id);
        assert LastTry(st, last.log, id, |st.log|);
      }
    }
  }

  /** A row that still waits has one attempt more for its own execution, and its deadline. */
  lemma StillCounts(db0: Database, st: State, a: Action, id: Id)
    requires MachineInv(db0, st) && Enabled(st, a) && IsParked(st.db, id) && id in st.db.retries
    requires IsParked(After(st, a).db, id) && id in After(st, a).db.retries
    ensures var next := After(st, a);
      && next.db.retries[id].expiresAt == st.db.retries[id].expiresAt
      && next.db.retries[id].attempts == st.db.retries[id].attempts + Tried(next.log, id) - Tried(st.log, id)
  {
    hide MachineInv, Possible, Alone, After, Tried, Commits.Faithful;
    var next := After(st, a);
    LogOnlyGrows(db0, st, a);
    var max := if |next.log| > |st.log| && Tries(next.log[|st.log|], id) then next.log[|st.log|].step.max else 0;
    ActionCounts(db0, st, a, id, max);
    ActionIsFaithful(db0, st, a);
    DeadlineKept(st.db, next.db, id);
  }

  lemma DeadlineKept(db: Database, d: Database, id: Id)
    requires Commits.Faithful(db, d) && id in db.retries && IsParked(d, id) && id in d.retries
    ensures d.retries[id].expiresAt == db.retries[id].expiresAt
  {
    hide Inv, Evolves, Conservation.Conserved, Replays.Hashed;
    assert Evolves(db, d);
    RetryForwardAt(db, d, id);
  }

  lemma LaterTry(st: State, next: State, log: seq<Entry>, id: Id, i: nat)
    requires id in st.db.retries && id in next.db.retries && LastTry(next, log, id, i) && |st.log| <= |next.log|
    requires next.db.retries[id].expiresAt == st.db.retries[id].expiresAt
    requires next.db.retries[id].attempts == st.db.retries[id].attempts + Tried(next.log, id) - Tried(st.log, id)
    ensures LastTry(st, log, id, i)
  {
    hide Tried;
  }

  /** The commit that ends it. */
  lemma ThisIsLast(db0: Database, st: State, a: Action, last: State, id: Id)
    requires MachineInv(db0, st) && Enabled(st, a) && IsParked(st.db, id) && id in st.db.retries
    requires !IsParked(After(st, a).db, id) && After(st, a).log <= last.log
    requires Commits.Faithful(After(st, a).db, last.db) && GivenUp(last.db, id)
    ensures LastTry(st, last.log, id, |st.log|)
  {
    hide MachineInv, Sound, Written, EntryOf, Inv, Prepare, Tried, Commits.Faithful, Answers.ReferenceSettled;
    FinalByItsOwn(db0, st, a, id);
    MachineAt(db0, st, a.pid);
    var e := st.running[a.pid];
    var w, tx, res := e.phase.w, e.phase.tx, e.phase.res;
    GivesUpLate(st.db, e, w, tx, res);
    var d := Written(st.db, e, w, tx, res).value;
    var entry := EntryOf(st.db, e, w, tx, res);
    EntryIs(st.db, e, w, tx, res);
    assert After(st, a).db == d && After(st, a).log == st.log + [entry];
    ActionKeeps(db0, st, a);
    MachineHasInv(db0, After(st, a));
    RowStatus(d, id);
    StaysFinal(d, last.db, id);
    assert last.log[|st.log|] == entry && last.log[..|st.log|] == st.log;
  }

  lemma StaysFinal(d: Database, last: Database, id: Id)
    requires Commits.Faithful(d, last) && id in d.txs && d.txs[id].status.IsTerminal()
    requires GivenUp(last, id)
    ensures GivenUp(d, id)
  {
    hide Evolves, Conservation.Conserved, Replays.Hashed, Inv;
    assert Evolves(d, last);
    RowsForwardAt(d, last, id);
  }
}

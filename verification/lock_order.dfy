/**
 Deadlock freedom. Every use case takes its database locks in one order: inbox key, owner
 key, wallet row, unique keys of the transaction, transaction row, reversal index, retry
 row, outbox row; claims skip what is locked. So nobody ever waits in a circle.
 */
module LockOrder {
  import opened DomainMoney
  import opened DomainWagering

  datatype Resource =
    | InboxKey(messageId: string)
    | OwnerKey(playerId: Id, currency: Currency)
    | WalletRow(walletId: Id)
    | KeyEntry(providerId: string, key: string)
    | ExternalEntry(providerId: string, externalId: string)
    | TransactionRow(id: Id)
    | ReversalEntry(referenceId: Id)
    | RetryRow(id: Id)
    | OutboxRow(eventId: Id)
  {
    function Rank(): nat {
      match this
      case InboxKey(_) => 1
      case OwnerKey(_, _) => 2
      case WalletRow(_) => 3
      case KeyEntry(_, _) => 4
      case ExternalEntry(_, _) => 4  // both unique keys are taken by the one INSERT
      case TransactionRow(_) => 5
      case ReversalEntry(_) => 6
      case RetryRow(_) => 7
      case OutboxRow(_) => 8
    }
  }

  /** Wait blocks until all are free; Skip takes what is free (FOR UPDATE SKIP LOCKED). */
  datatype Acquire = Wait(wanted: set<Resource>) | Skip(wanted: set<Resource>)

  // ----- the lock programs of the use cases -----

  datatype UseCase =
    | Request(input: WagerInput, txId: Id, reference: Id)
    | Message(messageId: string, input: WagerInput, txId: Id, reference: Id)
    | Resolving(walletId: Id, txId: Id, reference: Id)
    | Orphan(txId: Id)                                // rejects without the wallet lock
    | Opening(playerId: Id, currency: Currency, walletId: Id, txId: Id)
    | ClaimRetries(ids: set<Id>)
    | ClaimEvents(ids: set<Id>)
    | MarkEvent(eventId: Id)

  /** The wallet first, then the row with its keys, then what a landing writes. */
  function RequestLocks(input: WagerInput, txId: Id, reference: Id): seq<Acquire> {
    [Wait({WalletRow(input.walletId)}),
     Wait({KeyEntry(input.providerId, input.idempotencyKey), ExternalEntry(input.providerId, input.externalId)}),
     Wait({TransactionRow(txId)}),
     Wait({ReversalEntry(reference)}),
     Wait({RetryRow(txId)})]
  }

  function Locks(u: UseCase): seq<Acquire> {
    match u
    case Request(input, txId, reference) => RequestLocks(input, txId, reference)
    case Message(messageId, input, txId, reference) =>
      [Wait({InboxKey(messageId)})] + RequestLocks(input, txId, reference)
    case Resolving(walletId, txId, reference) =>
      [Wait({WalletRow(walletId)}), Wait({TransactionRow(txId)}), Wait({ReversalEntry(reference)}), Wait({RetryRow(txId)})]
    case Orphan(txId) => [Wait({TransactionRow(txId)}), Wait({RetryRow(txId)})]
    case Opening(playerId, currency, walletId, txId) =>
      [Wait({OwnerKey(playerId, currency)}), Wait({WalletRow(walletId)}), Wait({TransactionRow(txId)})]
    case ClaimRetries(ids) => [Skip(set id | id in ids :: RetryRow(id))]
    case ClaimEvents(ids) => [Skip(set id | id in ids :: OutboxRow(id))]
    case MarkEvent(eventId) => [Wait({OutboxRow(eventId)})]
  }

  /** Everything in rs ranks below everything in ss. */
  ghost predicate Under(rs: set<Resource>, ss: set<Resource>) {
    forall r, s | r in rs && s in ss :: r.Rank() < s.Rank()
  }

  /** Each acquisition ranks above every earlier one. */
  ghost predicate Ascending(program: seq<Acquire>) {
    forall i, j | 0 <= i < j < |program| :: Under(program[i].wanted, program[j].wanted)
  }

  /** Every use case acquires upwards. */
  lemma EveryUseCaseAscends(u: UseCase)
    ensures Ascending(Locks(u))
  {
  }

  // ----- processes -----

  datatype Process = Process(held: set<Resource>, rest: seq<Acquire>)

  type System = map<nat, Process>

  ghost predicate HeldByAnother(sys: System, pid: nat, r: Resource) {
    exists q | q in sys && q != pid :: r in sys[q].held
  }

  /** pid's next acquisition has to wait for q. */
  ghost predicate WaitsFor(sys: System, pid: nat, q: nat) {
    && pid in sys && q in sys && pid != q
    && sys[pid].rest != [] && sys[pid].rest[0].Wait?
    && exists r :: r in sys[pid].rest[0].wanted && r in sys[q].held
  }

  /** Nobody holds what pid wants next. */
  ghost predicate CanAdvance(sys: System, pid: nat) {
    pid in sys && forall q :: !WaitsFor(sys, pid, q)
  }

  ghost function Free(sys: System, pid: nat, rs: set<Resource>): set<Resource> {
    set r | r in rs && !HeldByAnother(sys, pid, r)
  }

  /** The next lock is taken; at the end of the program the transaction commits and releases everything. */
  ghost function Advance(sys: System, pid: nat): System
    requires pid in sys
  {
    var p := sys[pid];
    if p.rest == [] then sys - {pid}
    else sys[pid := Process(p.held + Free(sys, pid, p.rest[0].wanted), p.rest[1..])]
  }

  datatype Move = Arrive(pid: nat, useCase: UseCase) | Go(pid: nat) | Abort(pid: nat)

  ghost predicate Enabled(sys: System, m: Move) {
    match m
    case Arrive(pid, _) => pid !in sys
    case Go(pid) => CanAdvance(sys, pid)
    case Abort(pid) => pid in sys
  }

  ghost function After(sys: System, m: Move): System
    requires Enabled(sys, m)
  {
    match m
    case Arrive(pid, u) => sys[pid := Process({}, Locks(u))]
    case Go(pid) => Advance(sys, pid)
    case Abort(pid) => sys - {pid}
  }

  /** What is held ranks below what is still wanted, and no lock has two holders. */
  ghost predicate Climbing(p: Process) {
    Ascending(p.rest) && forall i | 0 <= i < |p.rest| :: Under(p.held, p.rest[i].wanted)
  }

  ghost predicate SystemInv(sys: System) {
    && (forall pid | pid in sys :: Climbing(sys[pid]))
    && (forall p, q | p in sys && q in sys && p != q :: sys[p].held !! sys[q].held)
  }

  lemma ClimbsOn(held: set<Resource>, rest: seq<Acquire>, taken: set<Resource>)
    requires rest != [] && Climbing(Process(held, rest)) && taken <= rest[0].wanted
    ensures Climbing(Process(held + taken, rest[1..]))
  {
    forall i | 0 <= i < |rest| - 1
      ensures Under(held + taken, rest[1..][i].wanted)
    {
      assert Under(held, rest[i + 1].wanted) && Under(rest[0].wanted, rest[i + 1].wanted);
    }
  }

  lemma MoveKeeps(sys: System, m: Move)
    requires SystemInv(sys) && Enabled(sys, m)
    ensures SystemInv(After(sys, m))
  {
    match m {
      case Arrive(pid, u) =>
        EveryUseCaseAscends(u);
        assert Climbing(Process({}, Locks(u)));
      case Go(pid) =>
        var p := sys[pid];
        if p.rest != [] {
          ClimbsOn(p.held, p.rest, Free(sys, pid, p.rest[0].wanted));
        }
      case Abort(_) =>
    }
  }

  // ----- no circle of waiting -----

  /** The rank someone waits at: some lock it wants and another holds. */
  ghost predicate WaitsAt(sys: System, pid: nat, q: nat, rank: nat) {
    && WaitsFor(sys, pid, q)
    && exists r :: r in sys[pid].rest[0].wanted && r in sys[q].held && r.Rank() == rank
  }

  lemma WaitRank(sys: System, pid: nat, q: nat) returns (rank: nat)
    requires WaitsFor(sys, pid, q)
    ensures WaitsAt(sys, pid, q, rank)
  {
    var r :| r in sys[pid].rest[0].wanted && r in sys[q].held;
    rank := r.Rank();
  }

  /** Whoever is waited for waits, if at all, for something higher. */
  lemma WaitsHigher(sys: System, a: nat, b: nat, c: nat, low: nat, high: nat)
    requires SystemInv(sys) && WaitsAt(sys, a, b, low) && WaitsAt(sys, b, c, high)
    ensures low < high
  {
    assert Under(sys[b].held, sys[b].rest[0].wanted);
  }

  /** A chain of waits, each for the next. */
  ghost predicate WaitChain(sys: System, pids: seq<nat>) {
    forall i, j | 0 <= i < |pids| && j == i + 1 < |pids| :: WaitsFor(sys, pids[i], pids[j])
  }

  /** Ranks rise along a chain. */
  lemma {:induction false} RanksRise(sys: System, pids: seq<nat>, low: nat) returns (high: nat)
    requires SystemInv(sys) && |pids| >= 2 && WaitChain(sys, pids) && WaitsAt(sys, pids[0], pids[1], low)
    ensures low <= high && WaitsAt(sys, pids[|pids| - 2], pids[|pids| - 1], high)
    decreases |pids|
  {
    if |pids| > 2 {
      assert WaitsFor(sys, pids[1], pids[2]);
      var next := WaitRank(sys, pids[1], pids[2]);
      WaitsHigher(sys, pids[0], pids[1], pids[2], low, next);
      forall i, j | 0 <= i < |pids[1..]| && j == i + 1 < |pids[1..]|
        ensures WaitsFor(sys, pids[1..][i], pids[1..][j])
      {
        assert WaitsFor(sys, pids[i + 1], pids[j + 1]);
      }
      high := RanksRise(sys, pids[1..], next);
    } else {
      high := low;
    }
  }

  /** No process waits, through others, for itself. */
  lemma NoWaitCycle(sys: System, pids: seq<nat>)
    requires SystemInv(sys) && |pids| >= 2 && WaitChain(sys, pids)
    ensures pids[0] != pids[|pids| - 1]
  {
    assert WaitsFor(sys, pids[0], pids[1]);
    var low := WaitRank(sys, pids[0], pids[1]);
    var high := RanksRise(sys, pids, low);
    if pids[0] == pids[|pids| - 1] {
      WaitsHigher(sys, pids[|pids| - 2], pids[0], pids[1], high, low);
      assert false;
    }
  }

  /** Following the waits upwards leads to someone who can go on. */
  lemma {:induction false} FollowWaits(sys: System, pid: nat, low: nat) returns (free: nat)
    requires SystemInv(sys) && pid in sys && low <= 8
    requires low > 0 ==> exists r :: r in sys[pid].held && r.Rank() == low
    ensures CanAdvance(sys, free)
    decreases 8 - low
  {
    if CanAdvance(sys, pid) {
      free := pid;
    } else {
      var q :| WaitsFor(sys, pid, q);
      var r :| r in sys[pid].rest[0].wanted && r in sys[q].held;
      assert Under(sys[pid].held, sys[pid].rest[0].wanted);
      free := FollowWaits(sys, q, r.Rank());
    }
  }

  /** As long as anyone is running, someone can go on. */
  lemma SomeoneCanAdvance(sys: System)
    requires SystemInv(sys) && sys != map[]
    ensures exists pid :: CanAdvance(sys, pid)
  {
    var pid :| pid in sys;
    var free := FollowWaits(sys, pid, 0);
  }

  ghost predicate EnabledAll(sys: System, ms: seq<Move>)
    decreases |ms|
  {
    ms != [] ==> Enabled(sys, ms[0]) && EnabledAll(After(sys, ms[0]), ms[1..])
  }

  ghost function AfterAll(sys: System, ms: seq<Move>): System
    requires EnabledAll(sys, ms)
    decreases |ms|
  {
    if ms == [] then sys else AfterAll(After(sys, ms[0]), ms[1..])
  }

  lemma {:induction false} AllKeep(sys: System, ms: seq<Move>)
    requires SystemInv(sys) && EnabledAll(sys, ms)
    ensures SystemInv(AfterAll(sys, ms))
    decreases |ms|
  {
    if ms != [] {
      hide SystemInv, Enabled, After;
      MoveKeeps(sys, ms[0]);
      AllKeep(After(sys, ms[0]), ms[1..]);
    }
  }

  /**
   Deadlock freedom: after any schedule of any number of executions of any use cases, no
   chain of waits closes into a circle, and if anyone is running someone can go on.
   */
  lemma NeverDeadlocked(ms: seq<Move>, pids: seq<nat>)
    requires EnabledAll(map[], ms) && |pids| >= 2
    ensures WaitChain(AfterAll(map[], ms), pids) ==> pids[0] != pids[|pids| - 1]
    ensures AfterAll(map[], ms) != map[] ==> exists pid :: CanAdvance(AfterAll(map[], ms), pid)
  {
    AllKeep(map[], ms);
    var sys := AfterAll(map[], ms);
    hide SystemInv, WaitChain, CanAdvance, EnabledAll;
    if WaitChain(sys, pids) {
      NoWaitCycle(sys, pids);
    }
    if sys != map[] {
      SomeoneCanAdvance(sys);
    }
  }
}

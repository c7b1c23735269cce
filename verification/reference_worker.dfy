/**
 The reference worker (internal/transport/worker/reference.go): lease what is due, then
 resolve it. The lease is what keeps two executions of one row apart.
 */
module ReferenceWorker {
  import opened Wrappers
  import opened Apperr
  import opened DomainMoney
  import opened DomainWagering
  import opened DomainWallet
  import opened DomainEvent
  import opened Postgres
  import opened AppProcess
  import opened AppResolve
  import opened AppOpen
  import opened Invariants
  import opened Settlement
  import opened Openings
  import opened Runs
  import opened History
  import opened Replays
  import opened Parking
  import opened InboxTransaction
  import opened UnitOfWork

  const REFERENCE_LOCK_TTL: int := 30 * SECOND
  const BATCH: int := 20

  function IdsOf(due: seq<Id>): set<Id> {
    set id | id in due
  }

  /** Parked rows whose retry is due. */
  ghost function DueRows(db: Database, now: int): set<Id> {
    set id | id in db.retries && IsParked(db, id) && db.retries[id].nextAttemptAt <= now
  }

  /**
   What the claim's SELECT ... ORDER BY next_attempt_at FOR UPDATE SKIP LOCKED LIMIT 20 may
   take: the earliest due rows that nobody else has locked. RETURNING gives them in any order.
   */
  ghost predicate Due(db: Database, due: seq<Id>, now: int, skipped: set<Id>) {
    && |due| <= BATCH
    && (forall i, j | 0 <= i < j < |due| :: due[i] != due[j])
    && (forall id | id in due :: id in DueRows(db, now) && id !in skipped)
    && (forall id | id in DueRows(db, now) && id !in skipped && id !in due ::
          |due| == BATCH &&
          forall other | other in due :: db.retries[other].nextAttemptAt <= db.retries[id].nextAttemptAt)
  }

  lemma {:induction false} FewIds(due: seq<Id>)
    ensures |IdsOf(due)| <= |due|
    decreases |due|
  {
    if due != [] {
      var init, last := due[..|due| - 1], due[|due| - 1];
      FewIds(init);
      assert due == init + [last];
      assert IdsOf(due) == IdsOf(init) + {last};
    }
  }

  /** The claim is the lease step of the runs. */
  lemma ClaimIsLease(db: Database, due: seq<Id>, now: int, skipped: set<Id>)
    requires Due(db, due, now, skipped)
    ensures Admissible(db, LeaseOf(due, now)) && Next(db, LeaseOf(due, now)) == Leased(db, IdsOf(due), now + REFERENCE_LOCK_TTL)
  {
    FewIds(due);
  }

  function LeaseOf(due: seq<Id>, now: int): Step {
    Lease(IdsOf(due), now, now + REFERENCE_LOCK_TTL)
  }

  lemma {:induction false} DistinctIdsCount(due: seq<Id>)
    requires forall i, j | 0 <= i < j < |due| :: due[i] != due[j]
    ensures |IdsOf(due)| == |due|
    decreases |due|
  {
    if due != [] {
      var init, last := due[..|due| - 1], due[|due| - 1];
      DistinctIdsCount(init);
      assert due == init + [last];
      assert IdsOf(due) == IdsOf(init) + {last};
    }
  }

  /**
   A claim takes its batch out of what is due and leaves the rest due: none of it earlier than
   what was taken, and with nothing locked by others it is all but twenty, or nothing.
   */
  lemma ClaimTakesEarliest(db: Database, due: seq<Id>, now: int, skipped: set<Id>)
    requires Due(db, due, now, skipped)
    ensures var d := Leased(db, IdsOf(due), now + 30 * 1_000_000_000);
      && |due| <= 20
      && (forall id | id in due :: id in db.txs && db.txs[id].status == PendingReference && db.retries[id].nextAttemptAt <= now)
      && DueRows(d, now) == DueRows(db, now) - IdsOf(due) && |DueRows(d, now)| == |DueRows(db, now)| - |due|
      && (skipped == {} ==> |due| == 20 || forall id | id in d.retries && IsParked(d, id) :: now < d.retries[id].nextAttemptAt)
      && (forall id, other | id in DueRows(d, now) && id !in skipped && other in due ::
            db.retries[other].nextAttemptAt <= db.retries[id].nextAttemptAt)
      && (forall id | id in due :: id in d.retries && d.retries[id] == db.retries[id].(nextAttemptAt := now + 30 * 1_000_000_000))
      && d == db.(retries := d.retries) && forall id | id in db.retries && id !in due :: id in d.retries && d.retries[id] == db.retries[id]
  {
    var d := Leased(db, IdsOf(due), now + REFERENCE_LOCK_TTL);
    DistinctIdsCount(due);
    assert DueRows(d, now) == DueRows(db, now) - IdsOf(due);
    assert IdsOf(due) <= DueRows(db, now);
    assert DueRows(db, now) == (DueRows(db, now) - IdsOf(due)) + IdsOf(due);
  }

  // ----- the claim's own transaction -----

  /** What others commit before one attempt at the claim, what its SELECT took and had to skip, and how it ended. */
  datatype ClaimAttempt = ClaimAttempt(before: seq<Step>, due: seq<Id>, skipped: set<Id>, ending: Ending)

  datatype Claiming = Claiming(tables: Tables, ids: seq<Id>, result: Result<(), TxError>)

  /** The ids are appended to the caller's list as soon as the statement has returned. */
  function ClaimOnce(t: Tables, ids: seq<Id>, now: int, a: ClaimAttempt): Claiming {
    var leased := t.(db := Leased(t.db, IdsOf(a.due), now + REFERENCE_LOCK_TTL));
    match a.ending
    case BeginFails(e) => Claiming(t, ids, Failure(Broke(e)))
    case StatementFails(e) => Claiming(t, ids, Failure(Broke(Sql(e))))
    case CommitFails(e) => Claiming(t, ids + a.due, Failure(Broke(Sql(e))))
    case CommitUnseen => Claiming(leased, ids + a.due, Failure(Broke(Sql(ConnectionLost))))
    case Quiet => Claiming(leased, ids + a.due, Success(()))
  }

  /** Only a commit leases, and only one that is seen succeeds; the ids are there once the statement has returned. */
  lemma ClaimEnds(t: Tables, ids: seq<Id>, now: int, a: ClaimAttempt)
    ensures var c := ClaimOnce(t, ids, now, a);
      && (c.result.Success? <==> a.ending.Quiet?)
      && c.ids == (if a.ending.BeginFails? || a.ending.StatementFails? then ids else ids + a.due)
      && c.tables == (if a.ending.Quiet? || a.ending.CommitUnseen?
                      then t.(db := Leased(t.db, IdsOf(a.due), now + 30 * 1_000_000_000)) else t)
      && (a.ending.StatementFails? || a.ending.CommitFails? ==> c.result == Failure(Broke(Sql(a.ending.state))))
      && (a.ending.BeginFails? ==> c.result == Failure(Broke(a.ending.cause)))
      && (a.ending.CommitUnseen? ==> c.result == Failure(Broke(Sql(ConnectionLost))))
  {
  }

  /** Up to three attempts; the list is not emptied in between. */
  function ClaimWithin(t: Tables, ids: seq<Id>, now: int, attempts: seq<ClaimAttempt>): Claiming
    requires |attempts| > 0
    decreases |attempts|
  {
    var c := ClaimOnce(Meanwhile(t, attempts[0].before), ids, now, attempts[0]);
    if c.result.Success? || !Retryable(c.result.error) || |attempts| == 1 then c
    else ClaimWithin(c.tables, c.ids, now, attempts[1..])
  }

  /** Others keep to the rules, and each SELECT takes what is due then. */
  ghost predicate Claimable(t: Tables, now: int, attempts: seq<ClaimAttempt>)
    decreases |attempts|
  {
    attempts != [] ==>
      && AdmissibleRun(t.db, attempts[0].before)
      && Due(Meanwhile(t, attempts[0].before).db, attempts[0].due, now, attempts[0].skipped)
      && Claimable(Meanwhile(t, attempts[0].before), now, attempts[1..])
  }

  /** The first attempt, and what is left when it has to be repeated. */
  lemma FirstClaim(t: Tables, ids: seq<Id>, now: int, attempts: seq<ClaimAttempt>)
    requires attempts != [] && Inv(t.db, {}) && Claimable(t, now, attempts)
    ensures var base := Meanwhile(t, attempts[0].before);
      && Inv(base.db, {}) && Claimable(base, now, attempts[1..])
      && var c := ClaimOnce(base, ids, now, attempts[0]);
         && Inv(c.tables.db, {})
         && (c.result.Failure? && Retryable(c.result.error) ==> c.tables == base)
         && ClaimWithin(t, ids, now, attempts) ==
              if c.result.Success? || !Retryable(c.result.error) || |attempts| == 1 then c
              else ClaimWithin(c.tables, c.ids, now, attempts[1..])
  {
    hide Inv, Run, AdmissibleRun, Due, Next, Admissible, Leased;
    var base := Meanwhile(t, attempts[0].before);
    RunKeeps(t.db, attempts[0].before);
    ClaimIsLease(base.db, attempts[0].due, now, attempts[0].skipped);
    StepKeeps(base.db, LeaseOf(attempts[0].due, now));
  }

  /** The claim is tried again exactly after a deadlock or a serialization failure, while attempts last. */
  lemma ClaimGoesOn(t: Tables, ids: seq<Id>, now: int, attempts: seq<ClaimAttempt>)
    requires attempts != []
    ensures var c := ClaimOnce(Meanwhile(t, attempts[0].before), ids, now, attempts[0]);
      ClaimWithin(t, ids, now, attempts) ==
        if Transient(c.result) && |attempts| > 1 then ClaimWithin(c.tables, c.ids, now, attempts[1..]) else c
  {
    hide ClaimOnce, Run;
  }

  /** How many attempts are made. */
  function ClaimsMade(t: Tables, ids: seq<Id>, now: int, attempts: seq<ClaimAttempt>): (n: nat)
    requires |attempts| > 0
    ensures 1 <= n <= |attempts|
    decreases |attempts|
  {
    var c := ClaimOnce(Meanwhile(t, attempts[0].before), ids, now, attempts[0]);
    if c.result.Success? || !Retryable(c.result.error) || |attempts| == 1 then 1
    else 1 + ClaimsMade(c.tables, c.ids, now, attempts[1..])
  }

  /** What attempts rolled back at their commit had taken. */
  function RolledBack(attempts: seq<ClaimAttempt>): seq<Id> {
    if attempts == [] then []
    else (if attempts[0].ending.CommitFails? then attempts[0].due else []) + RolledBack(attempts[1..])
  }

  /** What a tick goes on to resolve: the rows its last attempt leased, after what was rolled back. */
  lemma {:induction false} ClaimedIds(t: Tables, ids: seq<Id>, now: int, attempts: seq<ClaimAttempt>)
    requires |attempts| > 0 && ClaimWithin(t, ids, now, attempts).result.Success?
    ensures var n := ClaimsMade(t, ids, now, attempts);
      ClaimWithin(t, ids, now, attempts).ids == ids + RolledBack(attempts[..n - 1]) + attempts[n - 1].due
    decreases |attempts|
  {
    hide Run, Leased, Retryable, ClaimOnce;
    var base := Meanwhile(t, attempts[0].before);
    var c, n := ClaimOnce(base, ids, now, attempts[0]), ClaimsMade(t, ids, now, attempts);
    RetriedAttempt(base, ids, now, attempts[0]);
    if c.result.Failure? {
      ClaimedIds(c.tables, c.ids, now, attempts[1..]);
      assert attempts[..n - 1][1..] == attempts[1..][..n - 2] && attempts[..n - 1][0] == attempts[0];
    }
  }

  /** And what it has leased: the rows of that attempt, on the tables of its time. */
  lemma {:induction false} ClaimedTables(t: Tables, ids: seq<Id>, now: int, attempts: seq<ClaimAttempt>)
    requires |attempts| > 0 && ClaimWithin(t, ids, now, attempts).result.Success?
    ensures var n := ClaimsMade(t, ids, now, attempts);
      ClaimWithin(t, ids, now, attempts).tables.db ==
        Leased(Run(t.db, ClaimedBefore(attempts, n)), IdsOf(attempts[n - 1].due), now + REFERENCE_LOCK_TTL)
    decreases |attempts|
  {
    hide Run, Leased, Retryable, ClaimOnce, IdsOf;
    var base := Meanwhile(t, attempts[0].before);
    var c, n := ClaimOnce(base, ids, now, attempts[0]), ClaimsMade(t, ids, now, attempts);
    RunConcat(t.db, attempts[0].before, []);
    assert attempts[0].before + [] == attempts[0].before;
    RetriedAttempt(base, ids, now, attempts[0]);
    if c.result.Failure? {
      ClaimedTables(c.tables, c.ids, now, attempts[1..]);
      RunConcat(t.db, attempts[0].before, ClaimedBefore(attempts[1..], n - 1));
    }
  }

  /**
   A tick resolves only rows that it has leased, exactly when whatever its rolled back
   attempts had taken was taken again by the last one.
   */
  lemma ResolvesOnlyLeased(t: Tables, now: int, attempts: seq<ClaimAttempt>)
    requires |attempts| > 0 && ClaimWithin(t, [], now, attempts).result.Success?
    ensures var c, n := ClaimWithin(t, [], now, attempts), ClaimsMade(t, [], now, attempts);
      IdsOf(c.ids) <= IdsOf(attempts[n - 1].due) <==> IdsOf(RolledBack(attempts[..n - 1])) <= IdsOf(attempts[n - 1].due)
  {
    hide ClaimWithin, ClaimsMade, RolledBack, Run, Leased;
    ClaimedIds(t, [], now, attempts);
    var n := ClaimsMade(t, [], now, attempts);
    var before, last := RolledBack(attempts[..n - 1]), attempts[n - 1].due;
    assert [] + before + last == before + last;
    assert IdsOf(before + last) == IdsOf(before) + IdsOf(last);
  }

  /**
   It may resolve a row that it has not leased: its first claim fails at the commit, another
   worker leases the row meanwhile, and the second claim, which takes nothing, succeeds.
   */
  lemma ResolvesUnleased(t: Tables, id: Id, now: int) returns (attempts: seq<ClaimAttempt>)
    requires DueRows(t.db, now) == {id}
    ensures |attempts| == 2 && Claimable(t, now, attempts)
    ensures var c := ClaimWithin(t, [], now, attempts);
      && c.result.Success? && c.ids == [id] && attempts[1].due == []
      && c.tables.db == Next(t.db, Lease({id}, now, now + REFERENCE_LOCK_TTL))
  {
    var others := Lease({id}, now, now + REFERENCE_LOCK_TTL);
    var first, second := ClaimAttempt([], [id], {}, CommitFails(SerializationFailure)), ClaimAttempt([others], [], {}, Quiet);
    attempts := [first, second];
    assert attempts[1..] == [second];
    OthersLease(t.db, id, now);
    EmptyRun(t.db);
    assert Meanwhile(t, []) == t;
    assert Due(t.db, [id], now, {}) by { assert id in DueRows(t.db, now); }
    hide Due, Run, AdmissibleRun, Leased, DueRows, Next;
    OneClaim(t, [id], now, second);
  }

  /** Once another worker has leased the only due row there is nothing to claim. */
  lemma OthersLease(db: Database, id: Id, now: int)
    requires DueRows(db, now) == {id}
    ensures var others := Lease({id}, now, now + REFERENCE_LOCK_TTL);
      var d := Run(db, [others]);
      && d == Next(db, others) && AdmissibleRun(db, [others]) && Due(d, [], now, {})
      && Leased(d, IdsOf([]), now + REFERENCE_LOCK_TTL) == d
  {
    var others := Lease({id}, now, now + REFERENCE_LOCK_TTL);
    OneStep(db, others);
    assert id in DueRows(db, now);
    var d := Next(db, others);
    assert DueRows(d, now) == {};
    assert IdsOf([]) == {};
    assert Leased(d, {}, now + REFERENCE_LOCK_TTL).retries == d.retries;
  }

  lemma OneClaim(t: Tables, ids: seq<Id>, now: int, a: ClaimAttempt)
    requires a.ending.Quiet?
    ensures ClaimWithin(t, ids, now, [a]) == ClaimOnce(Meanwhile(t, a.before), ids, now, a)
    ensures Claimable(t, now, [a]) <==>
      AdmissibleRun(t.db, a.before) && Due(Meanwhile(t, a.before).db, a.due, now, a.skipped)
  {
    hide Run, AdmissibleRun, Due, Leased;
    assert [a][1..] == [];
  }

  lemma RetriedAttempt(t: Tables, ids: seq<Id>, now: int, a: ClaimAttempt)
    ensures var c := ClaimOnce(t, ids, now, a);
      if c.result.Success? then
        c.ids == ids + a.due && c.tables == t.(db := Leased(t.db, IdsOf(a.due), now + REFERENCE_LOCK_TTL))
      else
        Retryable(c.result.error) ==> c.tables == t && c.ids == ids + (if a.ending.CommitFails? then a.due else [])
  {
  }

  function ClaimedBefore(attempts: seq<ClaimAttempt>, n: nat): seq<Step>
    requires n <= |attempts|
  {
    if n == 0 then [] else attempts[0].before + ClaimedBefore(attempts[1..], n - 1)
  }

  /** The tables after resolving the claimed rows in order; an error moves on to the next. */
  function Resolved(t: Tables, due: seq<Id>, attempts: seq<seq<Attempt>>): Tables
    requires |attempts| == |due| && forall i | 0 <= i < |attempts| :: |attempts[i]| > 0
    decreases |due|
  {
    if due == [] then t
    else Resolved(Within(t, UnitOfWork.Work.Resolution(due[0], 0), attempts[0]).tables, due[1..], attempts[1..])
  }

  /** What others do during the tick keeps to the rules. */
  ghost predicate OrderlyTick(t: Tables, due: seq<Id>, attempts: seq<seq<Attempt>>)
    requires |attempts| == |due| && forall i | 0 <= i < |attempts| :: |attempts[i]| == MAX_TRANSIENT_TX_ATTEMPTS
    decreases |due|
  {
    due != [] ==>
      && Orderly(t, UnitOfWork.Work.Resolution(due[0], 0), attempts[0])
      && OrderlyTick(Within(t, UnitOfWork.Work.Resolution(due[0], 0), attempts[0]).tables, due[1..], attempts[1..])
  }

  lemma WithinKeeps(t: Tables, id: Id, attempts: seq<Attempt>)
    requires |attempts| > 0 && Inv(t.db, {}) && Orderly(t, UnitOfWork.Work.Resolution(id, 0), attempts)
    ensures Inv(Within(t, UnitOfWork.Work.Resolution(id, 0), attempts).tables.db, {})
    decreases |attempts|
  {
    hide Inv, Run, AdmissibleRun, Resolve;
    var work := UnitOfWork.Work.Resolution(id, 0);
    var base := Meanwhile(t, attempts[0].before);
    RunKeeps(t.db, attempts[0].before);
    ResolveKeeps(base.db, id, MaxAttempts(0), attempts[0].s);
    RetryLeavesNothing(base, work, attempts[0]);
    var tried := Once(base, work, attempts[0]);
    if tried.result.Failure? && Retryable(tried.result.error) && |attempts| > 1 {
      WithinKeeps(base, id, attempts[1..]);
    }
  }

  /** Whatever becomes of one row, the next one is resolved on the tables it left. */
  lemma {:induction false} EveryRowIsResolved(t: Tables, due: seq<Id>, attempts: seq<seq<Attempt>>, k: nat)
    requires |attempts| == |due| && k < |due| && forall i | 0 <= i < |attempts| :: |attempts[i]| > 0
    ensures Resolved(t, due[..k + 1], attempts[..k + 1]) ==
      Within(Resolved(t, due[..k], attempts[..k]), UnitOfWork.Work.Resolution(due[k], 0), attempts[k]).tables
    ensures Resolved(t, due, attempts) == Resolved(Resolved(t, due[..k], attempts[..k]), due[k..], attempts[k..])
    decreases |due|
  {
    hide Within;
    if k > 0 {
      var next := Within(t, UnitOfWork.Work.Resolution(due[0], 0), attempts[0]).tables;
      EveryRowIsResolved(next, due[1..], attempts[1..], k - 1);
      assert due[..k + 1][1..] == due[1..][..k] && attempts[..k + 1][1..] == attempts[1..][..k];
      assert due[..k][1..] == due[1..][..k - 1] && attempts[..k][1..] == attempts[1..][..k - 1];
      assert due[1..][k - 1..] == due[k..] && attempts[1..][k - 1..] == attempts[k..];
    } else {
      assert due[0..] == due && attempts[0..] == attempts;
      assert due[..1] == [due[0]] && attempts[..1] == [attempts[0]] && due[..1][1..] == [] && attempts[..1][1..] == [];
    }
  }

  /** Claims, then resolves one row after the other whatever fails; a claim that fails ends the tick before any work. */
  method Tick(pool: Pool, now: int, claims: seq<ClaimAttempt>, attempts: seq<seq<Attempt>>)
    returns (r: Result<(), TxError>)
    requires Inv(pool.tables.db, {}) && |claims| == 3 && Claimable(pool.tables, now, claims)
    requires var c := ClaimWithin(pool.tables, [], now, claims);
      c.result.Success? ==>
        && |attempts| == |c.ids| && (forall i | 0 <= i < |attempts| :: |attempts[i]| == MAX_TRANSIENT_TX_ATTEMPTS)
        && OrderlyTick(c.tables, c.ids, attempts)
    modifies pool
    ensures var c := ClaimWithin(old(pool.tables), [], now, claims);
      && r == c.result
      && pool.tables == if c.result.Success? then Resolved(c.tables, c.ids, attempts) else c.tables
    ensures Inv(pool.tables.db, {})
  {
    hide Inv, Within, Orderly, Next, Admissible, ClaimWithin, Claimable;
    ghost var c := ClaimWithin(pool.tables, [], now, claims);
    var ids: seq<Id>;
    ids, r := Claim(pool, now, claims);
    if r.Failure? {
      return;
    }
    assert ids[0..] == ids && attempts[0..] == attempts;
    var i := 0;
    while i < |ids|
      invariant 0 <= i <= |ids| == |attempts|
      invariant Inv(pool.tables.db, {})
      invariant OrderlyTick(pool.tables, ids[i..], attempts[i..])
      invariant Resolved(pool.tables, ids[i..], attempts[i..]) == Resolved(c.tables, ids, attempts)
    {
      assert ids[i..][1..] == ids[i + 1..] && attempts[i..][1..] == attempts[i + 1..];
      WithinKeeps(pool.tables, ids[i], attempts[i]);
      var ignored := pool.WithinTransaction(UnitOfWork.Work.Resolution(ids[i], 0), attempts[i]);
      i := i + 1;
    }
  }

  /** The claim's own transaction, tried up to three times; the ids are collected outside of it. */
  method Claim(pool: Pool, now: int, attempts: seq<ClaimAttempt>) returns (ids: seq<Id>, r: Result<(), TxError>)
    requires Inv(pool.tables.db, {}) && |attempts| == MAX_TRANSIENT_TX_ATTEMPTS && Claimable(pool.tables, now, attempts)
    modifies pool
    ensures Claiming(pool.tables, ids, r) == ClaimWithin(old(pool.tables), [], now, attempts)
    ensures Inv(pool.tables.db, {})
  {
    hide Inv, Run, AdmissibleRun, Retryable, ClaimWithin, Claimable;
    ids := [];
    var attempt := 1;
    assert attempts[0..] == attempts;
    while true
      invariant 1 <= attempt <= MAX_TRANSIENT_TX_ATTEMPTS
      invariant Inv(pool.tables.db, {}) && Claimable(pool.tables, now, attempts[attempt - 1..])
      invariant ClaimWithin(old(pool.tables), [], now, attempts) ==
        ClaimWithin(pool.tables, ids, now, attempts[attempt - 1..])
      decreases MAX_TRANSIENT_TX_ATTEMPTS - attempt
    {
      var a := attempts[attempt - 1];
      ghost var rest := attempts[attempt - 1..];
      FirstClaim(pool.tables, ids, now, rest);
      pool.Others(a.before);
      ids, r := ClaimTransactionOnce(pool, ids, now, a);
      assert rest[1..] == attempts[attempt..];
      if r.Success? || !Retryable(r.error) || attempt == MAX_TRANSIENT_TX_ATTEMPTS {
        return;
      }
      attempt := attempt + 1;
    }
  }

  method ClaimTransactionOnce(pool: Pool, collected: seq<Id>, now: int, a: ClaimAttempt)
    returns (ids: seq<Id>, r: Result<(), TxError>)
    modifies pool
    ensures Claiming(pool.tables, ids, r) == ClaimOnce(old(pool.tables), collected, now, a)
  {
    ids := collected;
    if a.ending.BeginFails? {
      return ids, Failure(Broke(a.ending.cause));
    }
    if a.ending.StatementFails? {
      return ids, Failure(Broke(Sql(a.ending.state)));
    }
    for k := 0 to |a.due|
      invariant ids == collected + a.due[..k]
    {
      ids := ids + [a.due[k]];
    }
    assert a.due[..|a.due|] == a.due;
    if a.ending.CommitFails? {
      return ids, Failure(Broke(Sql(a.ending.state)));
    }
    pool.tables := pool.tables.(db := Leased(pool.tables.db, IdsOf(a.due), now + REFERENCE_LOCK_TTL));
    if a.ending.CommitUnseen? {
      return ids, Failure(Broke(Sql(ConnectionLost)));
    }
    return ids, Success(());
  }

  // ----- leases keep executions apart -----

  /** Neither executes the row nor leases it. */
  predicate LeavesAlone(step: Step, id: Id) {
    !Executes(step, id) && (step.Lease? ==> id !in step.ids)
  }

  lemma RetryUntouched(db: Database, step: Step, id: Id)
    requires Inv(db, {}) && Admissible(db, step) && IsParked(db, id) && LeavesAlone(step, id)
    ensures id in db.retries
    ensures var d := Next(db, step); IsParked(d, id) && id in d.retries && d.retries[id] == db.retries[id]
  {
    hide Inv, Process, Resolve, Open, Opened, Justified, Landed, Landable, FinalOutbox, Enterable;
    ParkedRow(db, id);
    match step {
      case Submit(input, txId, s) =>
        if Process(db, input, txId, s).Success? {
          SubmitElsewhere(db, input, txId, s, id);
        }
      case Retried(other, max, s) => ResolveElsewhere(db, other, max, s, id);
      case OpenFor(o, s) =>
        OpenKeeps(db, o, s);
        if Open(db, o, s).Success? {
          OpenedKeepsRetries(db, o, s);
        }
      case Lease(_, _, _) =>
    }
  }

  lemma {:induction false} RetryUntouchedBy(db: Database, steps: seq<Step>, id: Id)
    requires Inv(db, {}) && AdmissibleRun(db, steps) && IsParked(db, id)
    requires forall i | 0 <= i < |steps| :: LeavesAlone(steps[i], id)
    ensures id in db.retries
    ensures var d := Run(db, steps); Inv(d, {}) && IsParked(d, id) && id in d.retries && d.retries[id] == db.retries[id]
    decreases |steps|
  {
    hide Inv, Next, Admissible, LeavesAlone;
    ParkedRow(db, id);
    if steps != [] {
      StepKeeps(db, steps[0]);
      RetryUntouched(db, steps[0], id);
      RetryUntouchedBy(Next(db, steps[0]), steps[1..], id);
    }
  }
}

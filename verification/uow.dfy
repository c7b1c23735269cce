/** Retrying a SQL transaction (internal/infra/postgres/uow.go). */
module UnitOfWork {
  import opened Wrappers
  import opened Apperr
  import opened DomainMoney
  import opened DomainWagering
  import opened Postgres
  import opened AppProcess
  import opened AppResolve
  import opened Invariants
  import opened Runs
  import opened InboxTransaction

  const MAX_TRANSIENT_TX_ATTEMPTS: int := 3

  /** The function a unit of work runs. A wager is prepared before; a message inside. */
  datatype Work =
    | Wager(pending: WagerTx, hash: PayloadHash)
    | Consumption(message: Message)
    | Resolution(txId: Id, max: int)

  /** What becomes of an attempt besides its own errors. */
  datatype Ending =
    | BeginFails(cause: Error)
    | StatementFails(state: SqlState)  // deadlock victim, serialization failure, lost connection
    | CommitFails(state: SqlState)
    | CommitUnseen                     // committed, but the answer is lost
    | Quiet

  /** What others commit before the attempt, its UUIDs and clock, and its ending. */
  datatype Attempt = Attempt(before: seq<Step>, txId: Id, s: Stamp, ending: Ending)

  function Retryable(e: TxError): bool {
    e == Broke(Sql(DeadlockDetected)) || e == Broke(Sql(SerializationFailure))
  }

  function Performed(t: Tables, work: Work, a: Attempt): Result<Tables, TxError> {
    match work
    case Consumption(m) => Consume(t, m, a.txId, a.s)
    case Wager(pending, hash) =>
      (match Handle(t.db, pending, hash, a.s)
       case Success(h) => Success(t.(db := h.db))
       case Failure(e) => Failure(Broke(e)))
    case Resolution(txId, max) =>
      (match Resolve(t.db, txId, MaxAttempts(max), a.s)
       case Success(d) => Success(t.(db := d))
       case Failure(e) => Failure(Broke(e)))
  }

  datatype Tried = Tried(tables: Tables, result: Result<(), TxError>)

  /** One attempt: all of it or nothing. */
  function Once(t: Tables, work: Work, a: Attempt): Tried {
    match a.ending
    case BeginFails(e) => Tried(t, Failure(Broke(e)))
    case StatementFails(e) => Tried(t, Failure(Broke(Sql(e))))
    case _ =>
      match Performed(t, work, a)
      case Failure(e) => Tried(t, Failure(e))
      case Success(after) =>
        match a.ending
        case CommitFails(e) => Tried(t, Failure(Broke(Sql(e))))
        case CommitUnseen => Tried(after, Failure(Broke(Sql(ConnectionLost))))
        case _ => Tried(after, Success(()))
  }

  function Meanwhile(t: Tables, steps: seq<Step>): Tables {
    t.(db := Run(t.db, steps))
  }

  /** Up to three attempts, each on the tables of its own time. */
  function Within(t: Tables, work: Work, attempts: seq<Attempt>): Tried
    requires |attempts| > 0
    decreases |attempts|
  {
    var tried := Once(Meanwhile(t, attempts[0].before), work, attempts[0]);
    if tried.result.Success? || !Retryable(tried.result.error) || |attempts| == 1 then tried
    else Within(tried.tables, work, attempts[1..])
  }

  /** An error worth retrying means the attempt was rolled back. */
  lemma RetryLeavesNothing(t: Tables, work: Work, a: Attempt)
    ensures var tried := Once(t, work, a);
      tried.result.Failure? && Retryable(tried.result.error) ==> tried.tables == t
  {
    hide Performed;
  }

  /** One attempt takes effect exactly when it says so, or when its answer is lost after the commit. */
  lemma OneAttempt(t: Tables, work: Work, a: Attempt)
    ensures var tried := Once(t, work, a);
      && (tried.result.Success? ==> a.ending.Quiet? && Performed(t, work, a) == Success(tried.tables))
      && (tried.result.Failure? && a.ending.CommitUnseen? && Performed(t, work, a).Success? ==>
            Performed(t, work, a) == Success(tried.tables))
      && (tried.result.Failure? && !(a.ending.CommitUnseen? && Performed(t, work, a).Success?) ==> tried.tables == t)
  {
    hide Performed;
  }

  /** How many attempts are made. */
  function Made(t: Tables, work: Work, attempts: seq<Attempt>): (n: nat)
    requires |attempts| > 0
    ensures 1 <= n <= |attempts|
    decreases |attempts|
  {
    var tried := Once(Meanwhile(t, attempts[0].before), work, attempts[0]);
    if tried.result.Success? || !Retryable(tried.result.error) || |attempts| == 1 then 1
    else 1 + Made(tried.tables, work, attempts[1..])
  }

  /** Everything the others commit before the n-th attempt. */
  function Before(attempts: seq<Attempt>, n: nat): seq<Step>
    requires n <= |attempts|
  {
    if n == 0 then [] else attempts[0].before + Before(attempts[1..], n - 1)
  }

  /**
   Exactly once or not at all: whatever the errors, at most the last attempt took effect, on
   the tables of its time. Success means it did; failure means nothing did, unless only the
   answer to the commit was lost; and giving up early means the error was not transient.
   */
  lemma {:induction false} AtMostOneAttemptCounts(t: Tables, work: Work, attempts: seq<Attempt>)
    requires |attempts| > 0
    ensures var r, n := Within(t, work, attempts), Made(t, work, attempts);
      var base, last := Meanwhile(t, Before(attempts, n)), attempts[n - 1];
      && (r.result.Success? ==> last.ending.Quiet? && Performed(base, work, last) == Success(r.tables))
      && (r.result.Failure? && last.ending.CommitUnseen? && Performed(base, work, last).Success? ==>
            Performed(base, work, last) == Success(r.tables))
      && (r.result.Failure? && !(last.ending.CommitUnseen? && Performed(base, work, last).Success?) ==> r.tables == base)
      && (r.result.Failure? && n < |attempts| ==> !Retryable(r.result.error))
    decreases |attempts|
  {
    hide Performed, Once, Run, Retryable;
    var base := Meanwhile(t, attempts[0].before);
    OneAttempt(base, work, attempts[0]);
    RetryLeavesNothing(base, work, attempts[0]);
    RunConcat(t.db, attempts[0].before, []);
    assert attempts[0].before + [] == attempts[0].before;
    if Made(t, work, attempts) > 1 {
      var n := Made(base, work, attempts[1..]);
      AtMostOneAttemptCounts(base, work, attempts[1..]);
      RunConcat(t.db, attempts[0].before, Before(attempts[1..], n));
    }
  }

  // ----- which attempts are made, by the SQL states -----

  /** A deadlock victim or a serialization failure: 40P01 or 40001. */
  predicate Transient(r: Result<(), TxError>) {
    r == Failure(Broke(Sql(DeadlockDetected))) || r == Failure(Broke(Sql(SerializationFailure)))
  }

  /** How the k-th attempt goes on the tables of its time. */
  function Attempted(t: Tables, work: Work, attempts: seq<Attempt>, k: nat): Tried
    requires k < |attempts|
  {
    Once(Meanwhile(t, Before(attempts, k + 1)), work, attempts[k])
  }

  /** The first failures are transient, so the next attempt is made; it is the last, or its end is not transient. */
  ghost predicate EndsAt(t: Tables, work: Work, attempts: seq<Attempt>, k: nat) {
    && k < |attempts|
    && (forall j: nat | j < k :: Transient(Attempted(t, work, attempts, j).result))
    && (k + 1 == |attempts| || !Transient(Attempted(t, work, attempts, k).result))
  }

  /**
   Another attempt is made exactly after a deadlock or a serialization failure, up to the last:
   whatever attempt ends this way, its outcome is the outcome, and so many attempts are made.
   */
  lemma {:induction false} RetriesTransient(t: Tables, work: Work, attempts: seq<Attempt>, k: nat)
    requires EndsAt(t, work, attempts, k)
    ensures Made(t, work, attempts) == k + 1
    ensures Within(t, work, attempts) == Attempted(t, work, attempts, k)
    decreases |attempts|
  {
    hide Once, Run, Meanwhile, Within, Made, Before;
    FirstCounts(t, work, attempts);
    if k > 0 {
      var base := Meanwhile(t, attempts[0].before);
      assert Transient(Attempted(t, work, attempts, 0).result);
      forall j: nat | j < k
        ensures Attempted(base, work, attempts[1..], j) == Attempted(t, work, attempts, j + 1)
      {
        LaterTables(t, attempts, j);
      }
      hide Attempted;
      RetriesTransient(base, work, attempts[1..], k - 1);
    }
  }

  /** The first attempt is the outcome, unless it ends transiently and another is left. */
  lemma FirstCounts(t: Tables, work: Work, attempts: seq<Attempt>)
    requires |attempts| > 0
    ensures var base, first := Meanwhile(t, attempts[0].before), Attempted(t, work, attempts, 0);
      if Transient(first.result) && |attempts| > 1 then
        && Within(t, work, attempts) == Within(base, work, attempts[1..])
        && Made(t, work, attempts) == 1 + Made(base, work, attempts[1..])
      else
        Within(t, work, attempts) == first && Made(t, work, attempts) == 1
  {
    hide Once, Run;
    FirstTables(t, attempts);
    RetryLeavesNothing(Meanwhile(t, attempts[0].before), work, attempts[0]);
  }

  lemma FirstTables(t: Tables, attempts: seq<Attempt>)
    requires attempts != []
    ensures Meanwhile(t, Before(attempts, 1)) == Meanwhile(t, attempts[0].before)
  {
    assert Before(attempts, 1) == attempts[0].before + Before(attempts[1..], 0);
    assert attempts[0].before + [] == attempts[0].before;
  }

  lemma LaterTables(t: Tables, attempts: seq<Attempt>, j: nat)
    requires j + 1 < |attempts|
    ensures Meanwhile(Meanwhile(t, attempts[0].before), Before(attempts[1..], j + 1)) == Meanwhile(t, Before(attempts, j + 2))
  {
    hide Run;
    assert Before(attempts, j + 2) == attempts[0].before + Before(attempts[1..], j + 1);
    RunConcat(t.db, attempts[0].before, Before(attempts[1..], j + 1));
  }

  /** Some attempt is the last. */
  lemma {:induction false} SomeAttemptEnds(t: Tables, work: Work, attempts: seq<Attempt>, from: nat) returns (k: nat)
    requires from < |attempts| && forall j: nat | j < from :: Transient(Attempted(t, work, attempts, j).result)
    ensures EndsAt(t, work, attempts, k)
    decreases |attempts| - from
  {
    hide Attempted;
    if from + 1 == |attempts| || !Transient(Attempted(t, work, attempts, from).result) {
      k := from;
    } else {
      k := SomeAttemptEnds(t, work, attempts, from + 1);
    }
  }

  /** What the function of the transaction did, by its kind. */
  ghost predicate Did(t: Tables, work: Work, a: Attempt, r: Result<Tables, TxError>) {
    match work
    case Consumption(m) => r == Consume(t, m, a.txId, a.s)
    case Wager(pending, hash) =>
      (match Handle(t.db, pending, hash, a.s)
       case Success(h) => r == Success(Tables(h.db, t.inbox))
       case Failure(e) => r == Failure(Broke(e)))
    case Resolution(id, configured) =>
      match Resolve(t.db, id, if configured <= 0 then 12 else configured, a.s)
      case Success(d) => r == Success(Tables(d, t.inbox))
      case Failure(e) => r == Failure(Broke(e))
  }

  /**
   How one attempt ends. Its own failure or the database's rolls it back and is reported; a
   commit keeps what it did, and reports success unless the answer is lost.
   */
  lemma AttemptEnds(t: Tables, work: Work, a: Attempt, did: Result<Tables, TxError>)
    requires Did(t, work, a, did)
    ensures match a.ending
      case BeginFails(e) => Once(t, work, a) == Tried(t, Failure(Broke(e)))
      case StatementFails(state) => Once(t, work, a) == Tried(t, Failure(Broke(Sql(state))))
      case CommitFails(state) =>
        Once(t, work, a) == Tried(t, Failure(if did.Failure? then did.error else Broke(Sql(state))))
      case CommitUnseen =>
        Once(t, work, a) == (if did.Failure? then Tried(t, Failure(did.error)) else Tried(did.value, Failure(Broke(Sql(ConnectionLost)))))
      case Quiet =>
        Once(t, work, a) == (if did.Failure? then Tried(t, Failure(did.error)) else Tried(did.value, Success(())))
  {
    hide Consume, Handle, Resolve;
    assert Performed(t, work, a) == did;
  }

  /**
   Up to two deadlocks or serialization failures cost nothing: the attempt after them, if
   nothing goes wrong with it, decides, on the tables of its own time.
   */
  lemma RetriedAfterDeadlocks(t: Tables, work: Work, attempts: seq<Attempt>, k: nat, did: Result<Tables, TxError>)
    requires |attempts| == 3 && k < 3 && attempts[k].ending.Quiet?
    requires forall j: nat | j < k ::
      attempts[j].ending in {StatementFails(DeadlockDetected), StatementFails(SerializationFailure)}
    requires var base := Meanwhile(t, Before(attempts, k + 1)); Did(base, work, attempts[k], did)
    requires did.Failure? ==> !Transient(Failure(did.error))
    ensures Made(t, work, attempts) == k + 1
    ensures Within(t, work, attempts) ==
      if did.Success? then Tried(did.value, Success(())) else Tried(Meanwhile(t, Before(attempts, k + 1)), Failure(did.error))
  {
    hide Performed, Run, Made, Within, Before, Did;
    AttemptEnds(Meanwhile(t, Before(attempts, k + 1)), work, attempts[k], did);
    RetriesTransient(t, work, attempts, k);
  }

  /** Others keep to the rules, and the UUIDs handed out are new when they are used. */
  ghost predicate Orderly(t: Tables, work: Work, attempts: seq<Attempt>)
    decreases |attempts|
  {
    attempts != [] ==>
      && AdmissibleRun(t.db, attempts[0].before) && attempts[0].s.Usable()
      && (work.Consumption? ==> attempts[0].txId != NIL && attempts[0].txId !in Meanwhile(t, attempts[0].before).db.wallets)
      && (work.Wager? ==> work.pending.id !in Meanwhile(t, attempts[0].before).db.wallets)
      && Orderly(Meanwhile(t, attempts[0].before), work, attempts[1..])
  }

  /** The first of the attempts, and what is left when it has to be repeated. */
  lemma FirstAttempt(t: Tables, work: Work, attempts: seq<Attempt>)
    requires attempts != [] && Inv(t.db, {}) && Orderly(t, work, attempts)
    ensures var base := Meanwhile(t, attempts[0].before);
      && Inv(base.db, {}) && attempts[0].s.Usable() && Orderly(base, work, attempts[1..])
      && var tried := Once(base, work, attempts[0]);
         Within(t, work, attempts) ==
           if tried.result.Success? || !Retryable(tried.result.error) || |attempts| == 1 then tried
           else Within(tried.tables, work, attempts[1..])
  {
    hide Inv, Once, Run, AdmissibleRun, Retryable;
    RunKeeps(t.db, attempts[0].before);
  }

  /** The pool's view of the database: what is committed. */
  class Pool {
    var tables: Tables

    constructor (t: Tables)
      ensures tables == t
    {
      tables := t;
    }

    /** Runs the function on the repositories of one SQL transaction. */
    method Perform(work: Work, a: Attempt, repos: Repositories) returns (r: Result<(), TxError>)
      requires Inv(repos.db, {}) && !repos.aborted && a.s.Usable()
      requires work.Wager? ==> work.pending.status == Pending && work.pending.origin == External
      modifies repos`db, repos`inbox, repos`aborted
      ensures match Performed(Tables(old(repos.db), old(repos.inbox)), work, a)
        case Success(t) => r == Success(()) && Tables(repos.db, repos.inbox) == t && !repos.aborted
        case Failure(e) => r == Failure(e)
    {
      AttemptsCount(repos.db);
      hide Inv, Handle, Resolve, Consume;
      match work {
        case Consumption(m) =>
          r := ConsumeInTx(repos, m, a.txId, a.s);
        case Wager(pending, hash) =>
          var out := ExecuteInTx(repos, pending, hash, a.s);
          r := Rethrow(out);
        case Resolution(txId, max) =>
          var out := ResolveInTx(repos, txId, max, a.s);
          r := Rethrow(out);
      }
    }

    method WithinTransactionOnce(work: Work, a: Attempt) returns (r: Result<(), TxError>)
      requires Inv(tables.db, {}) && a.s.Usable()
      requires work.Wager? ==> work.pending.status == Pending && work.pending.origin == External
      modifies this
      ensures Tried(tables, r) == Once(old(tables), work, a)
    {
      hide Performed, Inv;
      if a.ending.BeginFails? {
        return Failure(Broke(a.ending.cause));
      }
      if a.ending.StatementFails? {
        return Failure(Broke(Sql(a.ending.state)));
      }
      var repos := new Repositories();
      repos.db, repos.inbox := tables.db, tables.inbox;
      r := Perform(work, a, repos);
      if r.Failure? {
        return;  // deferred rollback
      }
      if a.ending.CommitFails? {
        return Failure(Broke(Sql(a.ending.state)));
      }
      tables := Tables(repos.db, repos.inbox);
      if a.ending.CommitUnseen? {
        return Failure(Broke(Sql(ConnectionLost)));
      }
    }

    /** The environment commits in between. */
    method Others(steps: seq<Step>)
      modifies this
      ensures tables == Meanwhile(old(tables), steps)
    {
      tables := tables.(db := Run(tables.db, steps));
    }

    method WithinTransaction(work: Work, attempts: seq<Attempt>) returns (r: Result<(), TxError>)
      requires |attempts| == 3
      requires Inv(tables.db, {}) && Orderly(tables, work, attempts)
      requires work.Wager? ==> work.pending.status == Pending && work.pending.origin == External
      modifies this
      ensures Tried(tables, r) == Within(old(tables), work, attempts)
    {
      hide Inv, Once, Run, AdmissibleRun, Retryable, Within, Orderly;
      var attempt := 1;
      assert attempts[0..] == attempts;
      while true
        invariant 1 <= attempt <= MAX_TRANSIENT_TX_ATTEMPTS
        invariant Inv(tables.db, {}) && Orderly(tables, work, attempts[attempt - 1..])
        invariant Within(old(tables), work, attempts) == Within(tables, work, attempts[attempt - 1..])
        decreases MAX_TRANSIENT_TX_ATTEMPTS - attempt
      {
        var a := attempts[attempt - 1];
        ghost var rest := attempts[attempt - 1..];
        FirstAttempt(tables, work, rest);
        RetryLeavesNothing(Meanwhile(tables, a.before), work, a);
        Others(a.before);
        r := WithinTransactionOnce(work, a);
        assert rest[1..] == attempts[attempt..];
        if r.Success? || !Retryable(r.error) || attempt == MAX_TRANSIENT_TX_ATTEMPTS {
          return;
        }
        attempt := attempt + 1;
      }
    }
  }

  function Rethrow<T>(r: Result<T, Error>): Result<(), TxError> {
    match r
    case Success(_) => Success(())
    case Failure(e) => Failure(Broke(e))
  }

  lemma AttemptsCount(db: Database)
    requires Inv(db, {})
    ensures db.Keyed() && forall id | id in db.retries :: db.retries[id].attempts >= 0
  {
    hide Indexed, Reversals, Chains, Booked, Announced;
    forall id | id in db.retries
      ensures db.retries[id].attempts >= 0
    {
      assert Shape(db, db.txs[id], {});
    }
  }
}

/**
 Interleaved executions. Requests and resolver executions advance one statement at a time
 against the committed tables; what one of them writes is invisible until its commit. The
 wallet row lock is held from the read FOR UPDATE to commit or rollback, an uncommitted row
 makes other inserts of its keys wait, and any execution may die at any point.
 */
module Locking {
  import opened Wrappers
  import opened Apperr
  import opened DomainMoney
  import opened DomainWagering
  import opened DomainWallet
  import opened DomainEvent
  import opened Postgres
  import opened AppProcess
  import opened AppResolve
  import opened AppOpen
  import opened Invariants
  import opened Settlement
  import opened Openings
  import opened Runs

  datatype Work =
    | Request(input: WagerInput, txId: Id, s: Stamp)
    | Resolver(txId: Id, max: int, s: Stamp)
  {
    function AsStep(): Step {
      match this
      case Request(input, id, st) => Submit(input, id, st)
      case Resolver(id, m, st) => Retried(id, m, st)
    }

    function TheStamp(): Stamp {
      if Request? then s.(ttl := Ttl(input)) else s
    }
  }

  /** How far an execution has got, with what it has read so far. */
  datatype Phase =
    | Fresh
    | Unclaimed                                           // first read done
    | Waiting                                             // all unlocked reads done
    | Orphaned                                            // parked row, no retry row
    | Holding(w: Wallet)                                  // wallet lock taken
    | Entered(w: Wallet, tx: WagerTx)                     // row inserted, or read again under the lock
    | Seen(w: Wallet, tx: WagerTx, ref: Option<WagerTx>)  // reference looked up
    | Decided(w: Wallet, tx: WagerTx, res: Resolution)    // everything read; writes and commit follow
  {
    predicate Locks() {
      Holding? || Entered? || Seen? || Decided?
    }

    /** Its uncommitted row makes others wait. */
    predicate InFlight() {
      Entered? || Seen? || Decided?
    }
  }

  datatype Execution = Execution(work: Work, first: Option<WagerTx>, retry: Option<Retry>, ticket: nat, phase: Phase) {

    function WalletId(): Id {
      if work.Request? then work.input.walletId else if first.Some? then first.value.walletId else NIL
    }
  }

  /** A committed execution, in commit order; the ticket numbers the lock acquisitions. */
  datatype Entry =
    | Exact(step: Step, walletId: Id, ticket: nat)
    | Overtaken(step: Step, walletId: Id, ticket: nat)  // decided without seeing its reference
    | Apart(step: Step)                                 // takes no wallet lock

  datatype State = State(db: Database, running: map<nat, Execution>, log: seq<Entry>, clock: nat, refused: nat)

  datatype Action = Arrive(pid: nat, work: Work) | Advance(pid: nat) | Die(pid: nat) | Aside(step: Step)

  // ----- one statement -----

  /** The tables as the execution itself sees them: committed rows and its own. */
  function Base(db: Database, work: Work, tx: WagerTx): Database {
    if work.Request? then db.Insert(tx) else db
  }

  function PendingOf(work: Work): WagerTx
    requires work.Request? && Prepare(work.input, work.txId, work.s.now).Success?
  {
    Prepare(work.input, work.txId, work.s.now).value
  }

  /** What an execution makes of the reference it saw. */
  function Decision(e: Execution, w: Wallet, tx: WagerTx, ref: Option<WagerTx>, reversed: bool): Resolution {
    var s := e.work.TheStamp();
    match e.work
    case Request(_, _, _) => Final(Land(w, tx, Judge(w, tx, ref, reversed), s.ids.entry, s.now))
    case Resolver(_, max, _) =>
      if Unsettled(ref) then
        if e.retry.None? || Exhausted(e.retry.value, max, s.now) then Final(Refused(ReferenceNotFound)) else Again
      else
        Final(Land(w, tx, JudgeReference(tx, ref, reversed), s.ids.entry, s.now))
  }

  /** The writes, with the version guard of the wallet update. */
  function Written(db: Database, e: Execution, w: Wallet, tx: WagerTx, res: Resolution): Result<Database, Error> {
    match res
    case Again =>
      if e.retry.None? then Success(db)
      else Success(db.(retries := db.retries[tx.id := Rescheduled(e.retry.value, e.work.s.now)]))
    case Final(l) =>
      if l.Moved? && (w.id !in db.wallets || db.wallets[w.id].version != w.version) then
        Failure(Domain(Conflict))
      else
        Write(Base(db, e.work, tx), tx, w, l, e.work.TheStamp())
  }

  /** What the same execution decides if it reads everything at this moment. */
  function Now(db: Database, e: Execution, w: Wallet, tx: WagerTx): Resolution {
    var base := Base(db, e.work, tx);
    var ref := ReferenceOf(base, tx);
    Decision(e, w, tx, ref, AlreadyReversed(base, ref))
  }

  function Put(st: State, pid: nat, e: Execution): State {
    st.(running := st.running[pid := e])
  }

  function End(st: State, pid: nat): State {
    st.(running := st.running - {pid})
  }

  /** Someone else holds the lock of this wallet row. */
  ghost predicate Locked(st: State, pid: nat, walletId: Id) {
    exists q | q in st.running && q != pid :: st.running[q].phase.Locks() && st.running[q].WalletId() == walletId
  }

  predicate SameKeys(a: WagerInput, b: WagerInput) {
    a.providerId == b.providerId && (a.idempotencyKey == b.idempotencyKey || a.externalId == b.externalId)
  }

  /** Someone else's uncommitted row has one of these unique keys. */
  ghost predicate Claimed(st: State, pid: nat, input: WagerInput) {
    exists q | q in st.running && q != pid ::
      st.running[q].work.Request? && st.running[q].phase.InFlight() && SameKeys(st.running[q].work.input, input)
  }

  function ReadFirst(st: State, pid: nat, e: Execution): State {
    match e.work
    case Request(input, _, _) =>
      var ext := st.db.ByExternalId(input.providerId, input.externalId);
      if ext.Some? && ext.value.idempotencyKey != input.idempotencyKey then End(st, pid)
      else Put(st, pid, e.(phase := Unclaimed))
    case Resolver(txId, _, _) =>
      if txId in st.db.txs && st.db.txs[txId].status == PendingReference
      then Put(st, pid, e.(first := Some(st.db.txs[txId]), phase := Unclaimed))
      else End(st, pid)
  }

  function ReadSecond(st: State, pid: nat, e: Execution): State {
    match e.work
    case Request(input, _, _) =>
      if st.db.ByIdempotencyKey(input.providerId, input.idempotencyKey).Some? then End(st, pid)
      else Put(st, pid, e.(phase := Waiting))
    case Resolver(txId, _, _) =>
      if txId in st.db.retries then Put(st, pid, e.(retry := Some(st.db.retries[txId]), phase := Waiting))
      else Put(st, pid, e.(phase := Orphaned))
  }

  ghost function TakeLock(st: State, pid: nat, e: Execution): State {
    if e.WalletId() !in st.db.wallets then End(st, pid)
    else if Locked(st, pid, e.WalletId()) then st
    else Put(st, pid, e.(ticket := st.clock, phase := Holding(st.db.wallets[e.WalletId()]))).(clock := st.clock + 1)
  }

  ghost function Enter(st: State, pid: nat, e: Execution, w: Wallet): State
    requires e.work.Request? ==> Prepare(e.work.input, e.work.txId, e.work.s.now).Success?
  {
    match e.work
    case Request(input, txId, _) =>
      if Claimed(st, pid, input) then st
      else if st.db.ByIdempotencyKey(input.providerId, input.idempotencyKey).Some? ||
              st.db.ByExternalId(input.providerId, input.externalId).Some? || txId in st.db.txs
      then End(st, pid)
      else Put(st, pid, e.(phase := Entered(w, PendingOf(e.work))))
    case Resolver(txId, _, _) =>
      if txId in st.db.txs && st.db.txs[txId].status == PendingReference
      then Put(st, pid, e.(phase := Entered(w, st.db.txs[txId])))
      else End(st, pid)
  }

  function Decide(st: State, pid: nat, e: Execution, w: Wallet, tx: WagerTx, ref: Option<WagerTx>): State {
    var res := Decision(e, w, tx, ref, AlreadyReversed(st.db, ref));
    if res.Final? && res.landing.Stopped? then End(st, pid) else Put(st, pid, e.(phase := Decided(w, tx, res)))
  }

  function LookUp(st: State, pid: nat, e: Execution, w: Wallet, tx: WagerTx): State {
    if e.work.Request? && !(Owned(w, tx) && tx.IsReversal()) then Decide(st, pid, e, w, tx, None)
    else Put(st, pid, e.(phase := Seen(w, tx, ReferenceOf(Base(st.db, e.work, tx), tx))))
  }

  function EntryOf(db: Database, e: Execution, w: Wallet, tx: WagerTx, res: Resolution): Entry {
    if res == Now(db, e, w, tx) then Exact(e.work.AsStep(), w.id, e.ticket) else Overtaken(e.work.AsStep(), w.id, e.ticket)
  }

  function Commit(st: State, pid: nat, e: Execution, w: Wallet, tx: WagerTx, res: Resolution): State {
    match Written(st.db, e, w, tx, res)
    case Success(d) => End(st.(db := d, log := st.log + [EntryOf(st.db, e, w, tx, res)]), pid)
    case Failure(_) => End(st.(refused := st.refused + 1), pid)
  }

  /** The branch without a retry row: it rejects what it read first, unlocked. */
  function RejectUnlocked(st: State, pid: nat, e: Execution): State {
    if e.first.None? || e.WalletId() !in st.db.wallets then End(st, pid)
    else
      match Write(st.db, e.first.value, st.db.wallets[e.WalletId()], Refused(ReferenceNotFound), e.work.TheStamp())
      case Success(d) => End(st.(db := d), pid)
      case Failure(_) => End(st, pid)
  }

  ghost function Advanced(st: State, pid: nat): State
    requires pid in st.running
    requires var work := st.running[pid].work;
      work.Request? ==> Prepare(work.input, work.txId, work.s.now).Success?
  {
    var e := st.running[pid];
    match e.phase
    case Fresh => ReadFirst(st, pid, e)
    case Unclaimed => ReadSecond(st, pid, e)
    case Orphaned => RejectUnlocked(st, pid, e)
    case Waiting => TakeLock(st, pid, e)
    case Holding(w) => Enter(st, pid, e, w)
    case Entered(w, tx) => LookUp(st, pid, e, w, tx)
    case Seen(w, tx, ref) => Decide(st, pid, e, w, tx, ref)
    case Decided(w, tx, res) => Commit(st, pid, e, w, tx, res)
  }

  /** No ledger line has this id yet. */
  ghost predicate UnusedEntry(db: Database, entryId: Id) {
    forall w: Id, i | 0 <= i < |db.Ledger(w)| :: db.Ledger(w)[i].id != entryId
  }

  /** A ledger id that neither a line nor an execution under way has. */
  ghost predicate FreshEntry(st: State, entryId: Id) {
    && UnusedEntry(st.db, entryId)
    && forall q | q in st.running :: st.running[q].work.s.ids.entry != entryId
  }

  /** What can happen next: arriving requests are prepared, and UUIDs are fresh. */
  ghost predicate Possible(st: State, a: Action) {
    match a
    case Arrive(pid, work) =>
      && pid !in st.running && work.s.Usable() && FreshEntry(st, work.s.ids.entry)
      && (work.Request? ==>
            && Prepare(work.input, work.txId, work.s.now).Success?
            && work.txId !in st.db.txs && work.txId !in st.db.wallets
            && (forall q | q in st.running :: st.running[q].work.Request? ==> st.running[q].work.txId != work.txId))
    case Advance(pid) =>
      && pid in st.running
      && (st.running[pid].work.Request? ==>
            Prepare(st.running[pid].work.input, st.running[pid].work.txId, st.running[pid].work.s.now).Success?)
    case Die(pid) => pid in st.running
    case Aside(step) =>
      && (step.OpenFor? || step.Lease?) && Admissible(st.db, step)
      && (step.OpenFor? ==>
            && FreshEntry(st, step.s.ids.entry)
            && forall q | q in st.running && st.running[q].work.Request? ::
                 st.running[q].work.txId != step.opening.walletId && st.running[q].work.txId != step.opening.txId)
  }

  /** No other execution for the row of an arriving resolver is under way. */
  ghost predicate Alone(st: State, a: Action) {
    a.Arrive? && a.work.Resolver? ==>
      forall q | q in st.running :: st.running[q].work.Resolver? ==> st.running[q].work.txId != a.work.txId
  }

  /** The same while resolver executions of one row stay apart. */
  ghost predicate Enabled(st: State, a: Action) {
    Possible(st, a) && Alone(st, a)
  }

  ghost function After(st: State, a: Action): State
    requires Possible(st, a)
  {
    match a
    case Arrive(pid, work) => Put(st, pid, Execution(work, None, None, 0, Fresh))
    case Advance(pid) => Advanced(st, pid)
    case Die(pid) => End(st, pid)
    case Aside(step) => st.(db := Next(st.db, step), log := st.log + [Entry.Apart(step)])
  }

  // ----- replaying the log, one execution after the other -----

  /** What a step comes to when it does not see its reference. */
  function Unaware(db: Database, step: Step): Database {
    match step
    case Submit(input, txId, s) =>
      if Prepare(input, txId, s.now).Failure? || input.walletId !in db.wallets then db
      else
        var pending := Prepare(input, txId, s.now).value;
        (match Write(db.Insert(pending), pending, db.wallets[input.walletId], Parked, s.(ttl := Ttl(input)))
         case Success(d) => d
         case Failure(_) => db)
    case Retried(txId, max, s) =>
      if txId !in db.txs || txId !in db.retries || db.txs[txId].walletId !in db.wallets then db
      else if Exhausted(db.retries[txId], max, s.now) then
        (match Write(db, db.txs[txId], db.wallets[db.txs[txId].walletId], Refused(ReferenceNotFound), s)
         case Success(d) => d
         case Failure(_) => db)
      else db.(retries := db.retries[txId := Rescheduled(db.retries[txId], s.now)])
    case _ => db
  }

  function Redo(db: Database, entry: Entry): Database {
    if entry.Overtaken? then Unaware(db, entry.step) else Next(db, entry.step)
  }

  function Redone(db: Database, log: seq<Entry>): Database {
    if log == [] then db else Redo(Redone(db, log[..|log| - 1]), log[|log| - 1])
  }
}

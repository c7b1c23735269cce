/**
 The primary key of the ledger. UUIDs are handed out once, so no two lines of any ledger share
 an id, in any interleaving: every committed ledger can be listed, page by page.
 */
module EntryIds {
  import opened Wrappers
  import opened Apperr
  import opened DomainMoney
  import opened DomainWagering
  import opened DomainWallet
  import opened DomainEvent
  import opened Postgres
  import opened AppProcess
  import opened AppResolve
  import opened AppOpen
  import opened Invariants
  import opened Settlement
  import opened Openings
  import opened Runs
  import opened History
  import opened Replays
  import opened Conservation
  import opened Commits
  import opened Parking
  import opened EventLog
  import Queries
  import opened Locking
  import opened LockRefinement
  import opened Interleavings
  import Overlaps
  import Solo

  // ----- what a commit adds to the ledgers -----

  predicate OneMore(before: seq<LedgerEntry>, after: seq<LedgerEntry>, entryId: Id) {
    || after == before
    || (|after| == |before| + 1 && after[..|before|] == before && after[|before|].id == entryId)
  }

  /** At most one line is new: on this wallet, with this id. */
  ghost predicate LineOn(db: Database, d: Database, walletId: Id, entryId: Id) {
    && (forall v: Id | v != walletId :: d.Ledger(v) == db.Ledger(v))
    && OneMore(db.Ledger(walletId), d.Ledger(walletId), entryId)
  }

  ghost predicate AddsLine(db: Database, d: Database, entryId: Id) {
    exists walletId: Id :: LineOn(db, d, walletId, entryId)
  }

  lemma SameLedger(db: Database, d: Database, entryId: Id)
    requires d.ledger == db.ledger
    ensures AddsLine(db, d, entryId)
  {
    assert LineOn(db, d, NIL, entryId);
  }

  lemma OutcomeLine(db: Database, tx: WagerTx, w: Wallet, l: Landing, s: Stamp)
    requires Justified(db, tx, w, l, s)
    ensures AddsLine(db, Outcome(db, tx, w, l, s), s.ids.entry)
  {
    hide FinalOutbox, FinalRetries, FinalRow;
    assert LineOn(db, Outcome(db, tx, w, l, s), w.id, s.ids.entry);
  }

  lemma OpenedLine(db: Database, o: OpenInput, s: Stamp)
    requires Identities(db) && Openable(db, o, s)
    ensures AddsLine(db, Opened(db, o, s), s.ids.entry)
  {
    OpenedAdds(db, o, s);
    Unused(db, o, s);
    hide Opened, Identities, Openable, AddsRows;
    assert LineOn(db, Opened(db, o, s), o.walletId, s.ids.entry);
  }

  lemma SubmitLine(db: Database, input: WagerInput, txId: Id, s: Stamp)
    requires Inv(db, {}) && txId !in db.wallets
    ensures AddsLine(db, Next(db, Submit(input, txId, s)), s.ids.entry)
  {
    hide Inv, Process, Justified, Outcome, AddsLine, Landed, Landable, Prepare;
    if Process(db, input, txId, s).Success? && !Process(db, input, txId, s).value.result.replay {
      SubmitAddsRow(db, input, txId, s);
      var pending, st := Prepare(input, txId, s.now).value, s.(ttl := Ttl(input));
      var e, w := db.Insert(pending), db.wallets[pending.walletId];
      OutcomeLine(e, pending, w, Landed(e, pending, w, st), st);
      InsertLeavesLedger(db, e, pending, Next(db, Submit(input, txId, s)), s.ids.entry);
    } else {
      if Process(db, input, txId, s).Success? {
        ReplayChangesNothing(db, input, txId, s);
      }
      SameLedger(db, db, s.ids.entry);
    }
  }

  lemma InsertLeavesLedger(db: Database, e: Database, tx: WagerTx, d: Database, entryId: Id)
    requires e == db.Insert(tx) && AddsLine(e, d, entryId)
    ensures AddsLine(db, d, entryId)
  {
    var walletId :| LineOn(e, d, walletId, entryId);
    assert forall v: Id :: e.Ledger(v) == db.Ledger(v);
    assert LineOn(db, d, walletId, entryId);
  }

  lemma RetriedLine(db: Database, id: Id, max: int, s: Stamp)
    requires Inv(db, {})
    ensures AddsLine(db, Next(db, Retried(id, max, s)), s.ids.entry)
  {
    hide Inv, Write, ResolutionFor, Justified, Outcome, AddsLine, Landable;
    SameLedger(db, db, s.ids.entry);
    if id in db.txs && db.txs[id].status == PendingReference {
      ResolveCases(db, id, max, s);
      var tx := db.txs[id];
      var w, retry := db.wallets[tx.walletId], db.retries[id];
      match ResolutionFor(db, tx, retry, w, max, s) {
        case Again => SameLedger(db, Next(db, Retried(id, max, s)), s.ids.entry);
        case Final(l) =>
          if !l.Stopped? {
            OutcomeLine(db, tx, w, l, s);
          }
      }
    }
  }

  lemma OpenLine(db: Database, o: OpenInput, s: Stamp)
    requires Inv(db, {}) && Admissible(db, OpenFor(o, s))
    ensures AddsLine(db, Next(db, OpenFor(o, s)), s.ids.entry)
  {
    hide Inv, Opened, AddsLine, Openable;
    InvKeys(db, {});
    OpenKeeps(db, o, s);
    if Open(db, o, s).Success? {
      OpenedLine(db, o, s);
    } else {
      SameLedger(db, db, s.ids.entry);
    }
  }

  /** One step adds at most one line, with the id it was given. */
  lemma StepLine(db: Database, step: Step)
    requires Inv(db, {}) && Admissible(db, step)
    ensures step.Lease? ==> Next(db, step).ledger == db.ledger
    ensures !step.Lease? ==> AddsLine(db, Next(db, step), step.s.ids.entry)
  {
    hide Inv, AddsLine, Process, Resolve, Open;
    match step {
      case Submit(input, txId, s) => SubmitLine(db, input, txId, s);
      case Retried(id, max, s) => RetriedLine(db, id, max, s);
      case OpenFor(o, s) => OpenLine(db, o, s);
      case Lease(_, _, _) =>
    }
  }

  // ----- distinct ids -----

  /** No two lines anywhere share an id, and none is nil. */
  ghost predicate Named(db: Database) {
    && (forall v: Id, i: nat | i < |db.Ledger(v)| :: db.Ledger(v)[i].id != NIL)
    && (forall v: Id, i: nat, u: Id, j: nat | i < |db.Ledger(v)| && j < |db.Ledger(u)| && (v != u || i != j) ::
          db.Ledger(v)[i].id != db.Ledger(u)[j].id)
  }

  lemma UnusedStays(db: Database, d: Database, entryId: Id, other: Id)
    requires AddsLine(db, d, entryId) && UnusedEntry(db, other) && other != entryId
    ensures UnusedEntry(d, other)
  {
    var walletId :| LineOn(db, d, walletId, entryId);
    forall v: Id, i | 0 <= i < |d.Ledger(v)|
      ensures d.Ledger(v)[i].id != other
    {
      LineBefore(db, d, walletId, entryId, v, i);
    }
  }

  /** A line was there before, or is the new one. */
  lemma LineBefore(db: Database, d: Database, walletId: Id, entryId: Id, v: Id, i: nat)
    requires LineOn(db, d, walletId, entryId) && i < |d.Ledger(v)|
    ensures
      || (i < |db.Ledger(v)| && d.Ledger(v)[i] == db.Ledger(v)[i])
      || (v == walletId && i == |db.Ledger(v)| && d.Ledger(v)[i].id == entryId)
  {
    if v == walletId && i < |db.Ledger(v)| {
      assert d.Ledger(v)[i] == d.Ledger(v)[..|db.Ledger(v)|][i];
    }
  }

  lemma NamedStays(db: Database, d: Database, entryId: Id)
    requires Named(db) && AddsLine(db, d, entryId) && UnusedEntry(db, entryId) && entryId != NIL
    ensures Named(d)
  {
    var walletId :| LineOn(db, d, walletId, entryId);
    forall v: Id, i: nat | i < |d.Ledger(v)|
      ensures d.Ledger(v)[i].id != NIL
    {
      LineBefore(db, d, walletId, entryId, v, i);
    }
    forall v: Id, i: nat, u: Id, j: nat | i < |d.Ledger(v)| && j < |d.Ledger(u)| && (v != u || i != j)
      ensures d.Ledger(v)[i].id != d.Ledger(u)[j].id
    {
      LineBefore(db, d, walletId, entryId, v, i);
      LineBefore(db, d, walletId, entryId, u, j);
    }
  }

  // ----- in every interleaving -----

  /** Every execution holds an id of its own that no line has. */
  ghost predicate NamesApart(st: State) {
    && Named(st.db)
    && (forall p | p in st.running :: st.running[p].work.s.Usable() && UnusedEntry(st.db, st.running[p].work.s.ids.entry))
    && (forall p, q | p in st.running && q in st.running && p != q ::
          st.running[p].work.s.ids.entry != st.running[q].work.s.ids.entry)
  }

  /** A commit by pid, or aside, uses up one id. */
  lemma NamesLeft(st: State, d: Database, entryId: Id, left: map<nat, Execution>)
    requires NamesApart(st) && AddsLine(st.db, d, entryId) && UnusedEntry(st.db, entryId) && entryId != NIL
    requires forall p | p in left :: p in st.running && left[p] == st.running[p] && left[p].work.s.ids.entry != entryId
    ensures Named(d)
    ensures forall p | p in left :: left[p].work.s.Usable() && UnusedEntry(d, left[p].work.s.ids.entry)
    ensures forall p, q | p in left && q in left && p != q :: left[p].work.s.ids.entry != left[q].work.s.ids.entry
  {
    hide AddsLine, UnusedEntry, Named;
    NamedStays(st.db, d, entryId);
    forall p | p in left
      ensures UnusedEntry(d, left[p].work.s.ids.entry)
    {
      UnusedStays(st.db, d, entryId, left[p].work.s.ids.entry);
    }
  }

  /** What an execution commits adds at most the line it has an id for. */
  lemma CommitLine(db: Database, e: Execution, w: Wallet, tx: WagerTx, res: Resolution)
    requires Inv(db, {}) && Sound(db, e) && e.phase == Decided(w, tx, res)
    ensures Written(db, e, w, tx, res).Success?
    ensures AddsLine(db, Written(db, e, w, tx, res).value, e.work.s.ids.entry)
  {
    hide Inv, Sound, Written, Faithful, Beside, AddsLine, Unaware, Next, EntryOf;
    if e.work.Request? {
      RequestCommits(db, e, w, tx, res);
    } else {
      ResolverCommits(db, e, w, tx, res);
    }
    SoundStamp(db, e);
    StepLine(db, e.work.AsStep());
    UnawareMovesNothing(db, e.work.AsStep());
    if EntryOf(db, e, w, tx, res).Overtaken? {
      SameLedger(db, Unaware(db, e.work.AsStep()), e.work.s.ids.entry);
    }
    EntryStep(db, e, w, tx, res);
  }

  lemma EntryStep(db: Database, e: Execution, w: Wallet, tx: WagerTx, res: Resolution)
    ensures EntryOf(db, e, w, tx, res).step == e.work.AsStep()
  {
    hide Now;
  }

  lemma SoundStamp(db: Database, e: Execution)
    requires Sound(db, e)
    ensures Admissible(db, e.work.AsStep())
  {
    if e.work.Request? {
      PreparedRow(e.work.input, e.work.txId, e.work.s.now);
    }
  }

  /** Parking, giving up and trying again move no money. */
  lemma UnawareMovesNothing(db: Database, step: Step)
    ensures Unaware(db, step).ledger == db.ledger
  {
    hide Exhausted, Rescheduled, Prepare;
  }

  lemma AdvanceNames(db0: Database, st: State, pid: nat)
    requires MachineInv(db0, st) && NamesApart(st) && Enabled(st, Advance(pid))
    ensures NamesApart(Advanced(st, pid))
  {
    hide MachineInv, Prepare, Sound, Written, Inv, Named, UnusedEntry, EntryOf;
    MachineAt(db0, st, pid);
    NeverOrphaned(db0, st, pid);
    var e := st.running[pid];
    if e.phase.Decided? {
      var w, tx, res := e.phase.w, e.phase.tx, e.phase.res;
      CommitLine(st.db, e, w, tx, res);
      NamesLeft(st, Written(st.db, e, w, tx, res).value, e.work.s.ids.entry, st.running - {pid});
    } else {
      hide Decision, ReferenceOf, Base, Locked, Claimed;
      Overlaps.Progresses(st, pid);
      Solo.SameWork(st, pid);
    }
  }

  lemma AsideNames(db0: Database, st: State, step: Step)
    requires MachineInv(db0, st) && NamesApart(st) && Enabled(st, Aside(step))
    ensures NamesApart(After(st, Aside(step)))
  {
    hide Inv, Logged, AllSound, Exclusive, Ticketed, Named, UnusedEntry, Next;
    StepLine(st.db, step);
    if step.Lease? {
      LeaseNames(st.db, Next(st.db, step));
    } else {
      NamesLeft(st, Next(st.db, step), step.s.ids.entry, st.running);
    }
  }

  lemma LeaseNames(db: Database, d: Database)
    requires d.ledger == db.ledger
    ensures Named(d) == Named(db)
    ensures forall id: Id :: UnusedEntry(db, id) ==> UnusedEntry(d, id)
  {
    assert forall v: Id :: d.Ledger(v) == db.Ledger(v);
  }

  lemma ArriveNames(st: State, pid: nat, work: Work)
    requires NamesApart(st) && Possible(st, Arrive(pid, work))
    ensures NamesApart(After(st, Arrive(pid, work)))
  {
    hide Named, UnusedEntry, Prepare;
  }

  lemma DieNames(st: State, pid: nat)
    requires NamesApart(st)
    ensures NamesApart(End(st, pid))
  {
    hide Named, UnusedEntry;
  }

  lemma ActionNames(db0: Database, st: State, a: Action)
    requires MachineInv(db0, st) && NamesApart(st) && Enabled(st, a)
    ensures NamesApart(After(st, a))
  {
    hide MachineInv, NamesApart, Prepare, UnusedEntry;
    match a {
      case Arrive(pid, work) => ArriveNames(st, pid, work);
      case Die(pid) => DieNames(st, pid);
      case Aside(step) => AsideNames(db0, st, step);
      case Advance(pid) => AdvanceNames(db0, st, pid);
    }
  }

  lemma {:induction false} RanNames(db0: Database, st: State, actions: seq<Action>)
    requires MachineInv(db0, st) && NamesApart(st) && EnabledRun(st, actions)
    ensures NamesApart(Ran(st, actions))
    decreases |actions|
  {
    if actions != [] {
      hide MachineInv, NamesApart, Possible, Alone, After;
      ActionKeeps(db0, st, actions[0]);
      ActionNames(db0, st, actions[0]);
      RanNames(db0, After(st, actions[0]), actions[1..]);
    }
  }

  /** A named ledger can be listed. */
  lemma NamedIsReadable(db: Database, walletId: Id)
    requires Inv(db, {}) && Named(db) && walletId in db.wallets
    ensures Queries.DistinctIds(db.Ledger(walletId))
    ensures Queries.AllReadable(db.Ledger(walletId))
  {
    var ls := db.Ledger(walletId);
    forall i | 0 <= i < |ls|
      ensures Queries.Readable(ls[i])
    {
      LineFacts(db, walletId, i);
      assert ls[i].id != NIL;
    }
  }

  lemma LineFacts(db: Database, walletId: Id, i: nat)
    requires Inv(db, {}) && walletId in db.wallets && i < |db.Ledger(walletId)|
    ensures var line := db.Ledger(walletId)[i]; line.walletId == walletId != NIL && line.transactionId != NIL && line.Sound()
  {
    hide Indexed, Shapes, Reversals, Announced, Distinct, OpensFirst;
    assert ChainAt(db, walletId) && Lined(db, walletId);
    assert LineOfRow(db, walletId, db.Ledger(walletId)[i]);
  }
}

/**
 Deliveries that interleave. A delivery inserts its inbox row first and then runs the
 request's statements in the same transaction; deliveries, requests, resolvers, openings and
 leases advance in any order, and any of them may die. Two deliveries of one message wait for
 each other on the inbox key; what one of them commits is what the atomic consumer does.
 */
module Deliveries {
  import opened Wrappers
  import opened Apperr
  import opened DomainMoney
  import opened DomainWagering
  import opened DomainWallet
  import opened Postgres
  import opened AppProcess
  import opened AppResolve
  import opened Invariants
  import opened Settlement
  import opened Runs
  import opened Parking
  import opened InboxTransaction
  import Commits
  import opened Locking
  import opened LockRefinement
  import opened Interleavings
  import Solo

  /** carrying says whose statements are a message's; done holds what committed deliveries may delete. */
  datatype World = World(
    st: State,
    inbox: map<string, InboxRow>,
    carrying: map<nat, Message>,
    done: set<(string, string)>,
    deleted: set<(string, string)>,
    driven: map<string, nat>)

  datatype Move =
    | Receive(pid: nat, m: Message, txId: Id, s: Stamp)
    | Act(action: Action)
    | Delete(id: string, body: string)

  // ----- one move -----

  /** Another delivery's uncommitted inbox row has this key. */
  ghost predicate InboxKeyTaken(carrying: map<nat, Message>, id: string) {
    exists q | q in carrying :: carrying[q].id == id
  }

  /**
   The execution, about to end, commits what it has: it replays or meets a conflict that
   PostgreSQL did not raise, or its own commit goes through. Otherwise all is rolled back.
   */
  predicate CommitsNow(st: State, e: Execution)
    requires e.work.Request?
  {
    match e.phase
    case Fresh | Unclaimed => true
    case Holding(_) => st.db.ByIdempotencyKey(e.work.input.providerId, e.work.input.idempotencyKey).Some?
    case Decided(w, tx, res) => Written(st.db, e, w, tx, res).Success?
    case _ => false
  }

  function TimesDriven(driven: map<string, nat>, id: string): nat {
    if id in driven then driven[id] else 0
  }

  /** The inbox row commits together with what the execution wrote. */
  function Recorded(w: World, m: Message): World {
    w.(inbox := w.inbox[m.id := InboxRow(m.body, true)], done := w.done + {(m.id, m.body)},
       driven := w.driven[m.id := TimesDriven(w.driven, m.id) + 1])
  }

  ghost predicate Can(w: World, mv: Move) {
    match mv
    case Receive(pid, m, txId, s) =>
      Prepare(m.input, txId, s.now).Success? ==> Enabled(w.st, Arrive(pid, Request(m.input, txId, s)))
    case Act(a) => Enabled(w.st, a)
    case Delete(id, body) => (id, body) in w.done
  }

  /** A delivery waits, meets its recorded message, fails before the domain, or starts its request. */
  ghost function Received(w: World, pid: nat, m: Message, txId: Id, s: Stamp): World
    requires Can(w, Receive(pid, m, txId, s))
  {
    if InboxKeyTaken(w.carrying, m.id) then w
    else if m.id in w.inbox then
      if w.inbox[m.id].body != m.body then w
      else w.(inbox := Completed(w.inbox, m.id), done := w.done + {(m.id, m.body)})
    else if Prepare(m.input, txId, s.now).Failure? then w
    else w.(st := After(w.st, Arrive(pid, Request(m.input, txId, s))), carrying := w.carrying[pid := m])
  }

  /** A statement; when it ends a delivery's execution, the inbox row is kept or rolled back with it. */
  ghost function Acted(w: World, a: Action): World
    requires Enabled(w.st, a)
  {
    var after := w.(st := After(w.st, a));
    if a.Die? then after.(carrying := w.carrying - {a.pid})
    else if a.Advance? && a.pid in w.carrying && a.pid !in after.st.running then
      var left := after.(carrying := w.carrying - {a.pid});
      if w.st.running[a.pid].work.Request? && CommitsNow(w.st, w.st.running[a.pid]) then Recorded(left, w.carrying[a.pid]) else left
    else after
  }

  ghost function Moved(w: World, mv: Move): World
    requires Can(w, mv)
  {
    match mv
    case Receive(pid, m, txId, s) => Received(w, pid, m, txId, s)
    case Act(a) => Acted(w, a)
    case Delete(id, body) => w.(deleted := w.deleted + {(id, body)})
  }

  // ----- the inbox is safe in every interleaving -----

  /** Who carries a message runs its request, and nobody else has it, committed or not. */
  ghost predicate Carrying(w: World) {
    && (forall p | p in w.carrying ::
          p in w.st.running && w.st.running[p].work.Request? && w.st.running[p].work.input == w.carrying[p].input
          && w.carrying[p].id !in w.inbox)
    && (forall p, q | p in w.carrying && q in w.carrying && p != q :: w.carrying[p].id != w.carrying[q].id)
  }

  ghost predicate Safe(w: World) {
    && Carrying(w)
    && (forall d | d in w.done :: d.0 in w.inbox && w.inbox[d.0].body == d.1)
    && w.deleted <= w.done
    && (forall id | id in w.driven :: w.driven[id] <= 1 && id in w.inbox)
  }

  ghost predicate BodiesKept(a: map<string, InboxRow>, b: map<string, InboxRow>) {
    forall id | id in a :: id in b && b[id].body == a[id].body
  }

  /** A statement changes nobody but the one who makes it. */
  lemma OnlyItself(st: State, pid: nat)
    requires Possible(st, Advance(pid))
    ensures forall q | q in st.running && q != pid :: q in Advanced(st, pid).running && Advanced(st, pid).running[q] == st.running[q]
    ensures pid in Advanced(st, pid).running ==> Advanced(st, pid).running[pid].work == st.running[pid].work
  {
    hide Prepare, Written, Decision, EntryOf, ReferenceOf, Base, Write, Locked, Claimed;
  }

  lemma ReceiveIsSafe(w: World, pid: nat, m: Message, txId: Id, s: Stamp)
    requires Safe(w) && Can(w, Receive(pid, m, txId, s))
    ensures Safe(Received(w, pid, m, txId, s)) && BodiesKept(w.inbox, Received(w, pid, m, txId, s).inbox)
  {
    hide Prepare, UnusedEntry, Safe, InboxKeyTaken;
    if !InboxKeyTaken(w.carrying, m.id) && m.id !in w.inbox && Prepare(m.input, txId, s.now).Success? {
      var work := Request(m.input, txId, s);
      CarriersRun(w);
      StillSafe(w, After(w.st, Arrive(pid, work)), w.carrying);
      CarriesToo(w.(st := After(w.st, Arrive(pid, work))), pid, m);
      NothingLost(w);
    } else {
      SeenIsSafe(w, m);
    }
  }

  lemma NothingLost(w: World)
    ensures BodiesKept(w.inbox, w.inbox)
  {
  }

  lemma CarriesToo(w: World, pid: nat, m: Message)
    requires Safe(w) && !InboxKeyTaken(w.carrying, m.id) && m.id !in w.inbox
    requires pid in w.st.running && w.st.running[pid].work.Request? && w.st.running[pid].work.input == m.input
    ensures Safe(w.(carrying := w.carrying[pid := m]))
  {
  }

  lemma SeenIsSafe(w: World, m: Message)
    requires Safe(w)
    ensures BodiesKept(w.inbox, w.inbox)
    ensures m.id in w.inbox && w.inbox[m.id].body == m.body ==>
      var seen := w.(inbox := Completed(w.inbox, m.id), done := w.done + {(m.id, m.body)});
      Safe(seen) && BodiesKept(w.inbox, seen.inbox)
  {
  }

  /** The deliveries that are left keep their executions. */
  lemma StillSafe(w: World, st: State, left: map<nat, Message>)
    requires Safe(w)
    requires forall p | p in left ::
      && p in w.carrying && left[p] == w.carrying[p]
      && p in st.running && st.running[p].work == w.st.running[p].work
    ensures Safe(w.(st := st, carrying := left))
  {
  }

  lemma RecordedIsSafe(w: World, m: Message)
    requires Safe(w) && m.id !in w.inbox && !InboxKeyTaken(w.carrying, m.id)
    ensures Safe(Recorded(w, m)) && BodiesKept(w.inbox, Recorded(w, m).inbox)
  {
  }

  lemma AdvanceIsSafe(w: World, pid: nat)
    requires Safe(w) && Enabled(w.st, Advance(pid))
    ensures Safe(Acted(w, Advance(pid))) && BodiesKept(w.inbox, Acted(w, Advance(pid)).inbox)
  {
    hide Prepare, Advanced, CommitsNow, Recorded, Safe;
    OnlyItself(w.st, pid);
    CarriersRun(w);
    var after := Advanced(w.st, pid);
    if pid in w.carrying && pid !in after.running {
      StillSafe(w, after, w.carrying - {pid});
      NotTaken(w, pid, after);
      RecordedIsSafe(w.(st := after, carrying := w.carrying - {pid}), w.carrying[pid]);
    } else {
      StillSafe(w, after, w.carrying);
    }
  }

  lemma CarriersRun(w: World)
    requires Safe(w)
    ensures forall p | p in w.carrying :: p in w.st.running
  {
  }

  lemma NotTaken(w: World, pid: nat, st: State)
    requires Safe(w) && pid in w.carrying
    ensures w.carrying[pid].id !in w.inbox
    ensures !InboxKeyTaken(w.carrying - {pid}, w.carrying[pid].id)
  {
  }

  lemma ActIsSafe(w: World, a: Action)
    requires Safe(w) && Enabled(w.st, a)
    ensures Safe(Acted(w, a)) && BodiesKept(w.inbox, Acted(w, a).inbox)
  {
    hide Prepare, Advanced, Next, Safe, UnusedEntry;
    CarriersRun(w);
    match a {
      case Advance(pid) => AdvanceIsSafe(w, pid);
      case Die(pid) => StillSafe(w, After(w.st, a), w.carrying - {pid});
      case Arrive(_, _) => StillSafe(w, After(w.st, a), w.carrying);
      case Aside(_) => StillSafe(w, After(w.st, a), w.carrying);
    }
  }

  ghost predicate CanAll(w: World, mvs: seq<Move>)
    decreases |mvs|
  {
    mvs != [] ==> Can(w, mvs[0]) && CanAll(Moved(w, mvs[0]), mvs[1..])
  }

  ghost function AllMoved(w: World, mvs: seq<Move>): World
    requires CanAll(w, mvs)
    decreases |mvs|
  {
    if mvs == [] then w else AllMoved(Moved(w, mvs[0]), mvs[1..])
  }

  /**
   Inbox safety in every interleaving: a deleted message is one whose body the inbox holds,
   no message drives the domain twice, and the body recorded for an id stays.
   */
  lemma {:induction false} InterleavedInboxSafety(w: World, mvs: seq<Move>)
    requires Safe(w) && CanAll(w, mvs)
    ensures Safe(AllMoved(w, mvs)) && BodiesKept(w.inbox, AllMoved(w, mvs).inbox)
    decreases |mvs|
  {
    if mvs != [] {
      hide Safe, Can, Received, Acted;
      match mvs[0] {
        case Receive(pid, m, txId, s) => ReceiveIsSafe(w, pid, m, txId, s);
        case Act(a) =>
          assert Enabled(w.st, a) by { CanAct(w, a); }
          ActIsSafe(w, a);
        case Delete(id, body) => DeleteIsSafe(w, id, body);
      }
      InterleavedInboxSafety(Moved(w, mvs[0]), mvs[1..]);
    }
  }

  lemma CanAct(w: World, a: Action)
    requires Can(w, Act(a))
    ensures Enabled(w.st, a)
  {
  }

  lemma DeleteIsSafe(w: World, id: string, body: string)
    requires Safe(w) && Can(w, Delete(id, body))
    ensures Safe(Moved(w, Delete(id, body))) && BodiesKept(w.inbox, w.inbox)
  {
  }

  // ----- what a delivery commits is what the atomic consumer does -----

  /** A request whose key or external id is known only records the message. */
  lemma KnownOnlyRecords(t: Tables, m: Message, txId: Id, s: Stamp)
    requires Inv(t.db, {}) && m.id !in t.inbox && Prepare(m.input, txId, s.now).Success?
    requires
      || t.db.ByIdempotencyKey(m.input.providerId, m.input.idempotencyKey).Some?
      || (var taken := t.db.ByExternalId(m.input.providerId, m.input.externalId);
          taken.Some? && taken.value.idempotencyKey != m.input.idempotencyKey)
    ensures Consume(t, m, txId, s) == Success(t.(inbox := t.inbox[m.id := InboxRow(m.body, true)]))
  {
    hide Inv, Prepare, Settle, Replay;
    PreparedRow(m.input, txId, s.now);
    var held := t.db.ByIdempotencyKey(m.input.providerId, m.input.idempotencyKey);
    if held.Some? {
      StoredWallet(t.db, t.db.byKey[(m.input.providerId, m.input.idempotencyKey)]);
      ReplayOrConflict(t.db, held.value, CanonicalHash(m.input));
    }
  }

  lemma ReplayOrConflict(db: Database, existing: WagerTx, hash: PayloadHash)
    requires existing.walletId in db.wallets
    ensures Replay(db, existing, hash).Success? || Replay(db, existing, hash) == Failure(Domain(Conflict))
  {
  }

  lemma StoredWallet(db: Database, id: Id)
    requires Inv(db, {}) && id in db.txs
    ensures db.txs[id].walletId in db.wallets
  {
    hide Indexed, Shapes, Reversals, Chains, Booked, Announced;
  }

  /** A commit that saw its reference is the whole request at that moment. */
  lemma CommitIsProcess(db: Database, e: Execution, w: Wallet, tx: WagerTx, res: Resolution)
    requires Inv(db, {}) && Sound(db, e) && e.work.Request? && e.phase == Decided(w, tx, res)
    requires !EntryOf(db, e, w, tx, res).Overtaken?
    ensures Written(db, e, w, tx, res).Success?
    ensures match Process(db, e.work.input, e.work.txId, e.work.s)
      case Failure(_) => false
      case Success(h) => h.db == Written(db, e, w, tx, res).value
  {
    hide Inv, Justified, Outcome, Landed, Write, Settle, Process, Written, Commits.Faithful, Beside, Enterable, Landable;
    var input, txId, s := e.work.input, e.work.txId, e.work.s;
    RequestCommits(db, e, w, tx, res);
    PreparedRow(input, txId, s.now);
    EnterableHere(db, input, txId, s.now);
    SettleKeeps(db, tx, e.work.TheStamp());
    FreshRequest(db, input, txId, s);
    LandedIsNow(db, e, w, tx);
    hide Prepare, Decision, Now, ReferenceOf;
  }

  /**
   Whatever goes on around it, a delivery that commits does to tables and inbox what the
   atomic consumer does at that moment, unless its reference was settled from another wallet
   after it had looked.
   */
  lemma RecordedIsConsume(db0: Database, w: World, pid: nat)
    requires MachineInv(db0, w.st) && Safe(w) && Enabled(w.st, Advance(pid)) && pid in w.carrying && pid in w.st.running
    requires pid !in Advanced(w.st, pid).running && w.st.running[pid].work.Request? && CommitsNow(w.st, w.st.running[pid])
    ensures var e, m, after := w.st.running[pid], w.carrying[pid], Acted(w, Advance(pid));
      || Consume(Tables(w.st.db, w.inbox), m, e.work.txId, e.work.s) == Success(Tables(after.st.db, after.inbox))
      || (e.phase.Decided? && EntryOf(w.st.db, e, e.phase.w, e.phase.tx, e.phase.res).Overtaken?)
  {
    hide MachineInv, Inv, Written, EntryOf, Consume, Prepare, ReferenceOf, Decision, Base, Sound;
    MachineAt(db0, w.st, pid);
    var e, m := w.st.running[pid], w.carrying[pid];
    NotTaken(w, pid, w.st);
    CarriesIts(w, pid);
    SoundRequest(w.st.db, e);
    if e.phase.Decided? {
      if !EntryOf(w.st.db, e, e.phase.w, e.phase.tx, e.phase.res).Overtaken? {
        CommitIsProcess(w.st.db, e, e.phase.w, e.phase.tx, e.phase.res);
        ProcessIsConsume(Tables(w.st.db, w.inbox), m, e.work.txId, e.work.s);
      }
    } else {
      KnownOnlyRecords(Tables(w.st.db, w.inbox), m, e.work.txId, e.work.s);
    }
  }

  /** A delivery that changes the tables records its message with the same commit; one that finds its key known records it too. */
  lemma NothingWithoutInbox(w: World, pid: nat)
    requires Safe(w) && Enabled(w.st, Advance(pid)) && pid in w.carrying && pid in w.st.running
    requires !w.st.running[pid].phase.Orphaned?
    ensures var e, m, after := w.st.running[pid], w.carrying[pid], Acted(w, Advance(pid));
      && (after.st.db != w.st.db ==> after.inbox == w.inbox[m.id := InboxRow(m.body, true)])
      && (pid !in after.st.running &&
          (e.phase.Fresh? || e.phase.Unclaimed? ||
           (e.phase.Holding? && w.st.db.ByIdempotencyKey(m.input.providerId, m.input.idempotencyKey).Some?)) ==>
            after.st.db == w.st.db && after.inbox == w.inbox[m.id := InboxRow(m.body, true)])
  {
    hide Prepare, Written, EntryOf, Decision, ReferenceOf, Base, Write, Claimed, Locked;
    CarriesIts(w, pid);
    hide Safe;
  }

  lemma CarriesIts(w: World, pid: nat)
    requires Safe(w) && pid in w.carrying
    ensures pid in w.st.running && w.st.running[pid].work.Request? && w.st.running[pid].work.input == w.carrying[pid].input
  {
  }

  lemma SoundRequest(db: Database, e: Execution)
    requires Sound(db, e) && e.work.Request?
    ensures Prepare(e.work.input, e.work.txId, e.work.s.now).Success?
  {
  }

  lemma ProcessIsConsume(t: Tables, m: Message, txId: Id, s: Stamp)
    requires m.id !in t.inbox && Process(t.db, m.input, txId, s).Success?
    ensures Consume(t, m, txId, s) ==
      Success(Tables(Process(t.db, m.input, txId, s).value.db, t.inbox[m.id := InboxRow(m.body, true)]))
  {
    hide Handle;
  }

  // ----- the tables are the machine's -----

  /** A move is an action of the machine, or leaves it alone. */
  ghost function Steps(w: World, mv: Move): seq<Action>
    requires Can(w, mv)
  {
    match mv
    case Act(a) => [a]
    case Receive(pid, m, txId, s) =>
      if Received(w, pid, m, txId, s).st == w.st then [] else [Arrive(pid, Request(m.input, txId, s))]
    case Delete(_, _) => []
  }

  lemma MoveIsSteps(w: World, mv: Move)
    requires Can(w, mv)
    ensures EnabledRun(w.st, Steps(w, mv)) && Ran(w.st, Steps(w, mv)) == Moved(w, mv).st
  {
    hide Enabled, After, Prepare, CommitsNow;
    var steps := Steps(w, mv);
    assert steps != [] ==> steps[1..] == [];
  }

  /** What the deliveries, with everything else, commit is committed by a schedule of the machine. */
  lemma {:induction false} DeliveriesAreSchedule(w: World, mvs: seq<Move>) returns (actions: seq<Action>)
    requires CanAll(w, mvs)
    ensures EnabledRun(w.st, actions) && Ran(w.st, actions) == AllMoved(w, mvs).st
    decreases |mvs|
  {
    actions := [];
    if mvs != [] {
      hide Can, Moved, Steps, EnabledRun, Ran;
      MoveIsSteps(w, mvs[0]);
      var rest := DeliveriesAreSchedule(Moved(w, mvs[0]), mvs[1..]);
      RanConcat(w.st, Steps(w, mvs[0]), rest);
      actions := Steps(w, mvs[0]) + rest;
    }
  }
}

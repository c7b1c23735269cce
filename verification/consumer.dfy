/**
 The SQS consumer (internal/transport/worker/consumer.go) over an at-least-once queue: a
 message may be delivered any number of times, and an execution may die anywhere between
 the commit and the delete.
 */
module Consumer {
  import opened Wrappers
  import opened Apperr
  import opened DomainMoney
  import opened DomainWagering
  import opened Postgres
  import opened AppProcess
  import opened AppOpen
  import opened Invariants
  import opened Runs
  import opened Replays
  import opened InboxTransaction
  import opened UnitOfWork
  import Answers

  /** The body as far as handle gets with it. */
  datatype Content =
    | Malformed                // not JSON, or no message id, or no idempotency key
    | Unusable                 // a UUID or the money does not parse
    | Parsed(message: Message)

  datatype Delivery = Delivery(receipt: nat, content: Content)

  datatype HandleError = BadMessage | Poisoned | Broken(error: TxError) | HookAborted | DeleteFailed

  /** The queue's side: which receipts were made visible again, and which messages were deleted. */
  class Queue {
    var released: set<nat>
    var deleted: set<(string, string)>  // message id and body

    constructor ()
      ensures released == {} && deleted == {}
    {
      released := {};
      deleted := {};
    }

    method ChangeVisibility(receipt: nat)
      modifies `released
      ensures released == old(released) + {receipt}
    {
      released := released + {receipt};
    }

    method DeleteMessage(m: Message, fails: bool) returns (r: Result<(), HandleError>)
      modifies `deleted
      ensures r == if fails then Failure(DeleteFailed) else Success(())
      ensures deleted == if fails then old(deleted) else old(deleted) + {(m.id, m.body)}
    {
      if fails {
        return Failure(DeleteFailed);
      }
      deleted := deleted + {(m.id, m.body)};
      return Success(());
    }
  }

  /**
   One delivery. Only a usable message opens a transaction; its message is deleted exactly
   when the transaction committed and nothing went wrong after, and then the inbox row holds
   the body that was deleted.
   */
  method Handle(pool: Pool, queue: Queue, d: Delivery, attempts: seq<Attempt>, hookFails: bool, deleteFails: bool)
    returns (r: Result<(), HandleError>)
    requires |attempts| == MAX_TRANSIENT_TX_ATTEMPTS && Inv(pool.tables.db, {})
    requires d.content.Parsed? ==> Orderly(pool.tables, Consumption(d.content.message), attempts)
    modifies pool, queue
    ensures !d.content.Parsed? ==> r.Failure? && pool.tables == old(pool.tables)
    ensures d.content.Malformed? ==> r == Failure(BadMessage)
    ensures d.content.Unusable? ==> r == Failure(Poisoned)
    ensures d.content.Parsed? ==>
      pool.tables == Within(old(pool.tables), Consumption(d.content.message), attempts).tables
    ensures r.Success? <==>
      && d.content.Parsed? && !hookFails && !deleteFails
      && Within(old(pool.tables), Consumption(d.content.message), attempts).result.Success?
    ensures r.Success? ==> var m := d.content.message;
      queue.deleted == old(queue.deleted) + {(m.id, m.body)} &&
      m.id in pool.tables.inbox && pool.tables.inbox[m.id] == InboxRow(m.body, true)
    ensures r.Failure? ==> queue.deleted == old(queue.deleted)
    ensures d.receipt in queue.released <==>
      || d.receipt in old(queue.released)
      || r in {Failure(BadMessage), Failure(Poisoned)}
      || r == Failure(Broken(PayloadMismatch))
  {
    match d.content {
      case Malformed =>
        queue.ChangeVisibility(d.receipt);
        return Failure(BadMessage);
      case Unusable =>
        queue.ChangeVisibility(d.receipt);
        return Failure(Poisoned);
      case Parsed(m) =>
        CommittedRow(pool.tables, m, attempts);
        hide Inv, Within, Orderly;
        var done := pool.WithinTransaction(Consumption(m), attempts);
        match done {
          case Failure(e) =>
            if e == PayloadMismatch {
              queue.ChangeVisibility(d.receipt);
            }
            return Failure(Broken(e));
          case Success(_) =>
            if hookFails {
              return Failure(HookAborted);
            }
            r := queue.DeleteMessage(m, deleteFails);
        }
    }
  }

  /** Success of the unit of work means the inbox row of this body is committed. */
  lemma CommittedRow(t: Tables, m: Message, attempts: seq<Attempt>)
    requires |attempts| > 0
    ensures var w := Within(t, Consumption(m), attempts);
      w.result.Success? ==> m.id in w.tables.inbox && w.tables.inbox[m.id] == InboxRow(m.body, true)
  {
    var n := Made(t, Consumption(m), attempts);
    var base, last := Meanwhile(t, Before(attempts, n)), attempts[n - 1];
    AtMostOneAttemptCounts(t, Consumption(m), attempts);
    hide Within, Made, Before, Consume;
    if Consume(base, m, last.txId, last.s).Success? {
      CommitLeavesInboxRow(base, m, last.txId, last.s);
    }
  }

  // ----- any history of deliveries -----

  /** How far one delivery gets: not to the commit, to the commit, or to the delete. */
  datatype Fate = Lost | CommittedOnly | Acknowledged

  datatype Happening =
    | Other(step: Step)  // HTTP requests, resolvers, openings, leases
    | Deliver(m: Message, txId: Id, s: Stamp, fate: Fate)

  /** driven counts, by message id, the commits in which the message ran the domain. */
  datatype World = World(tables: Tables, deleted: set<(string, string)>, driven: map<string, nat>)

  function TimesDriven(w: World, id: string): nat {
    if id in w.driven then w.driven[id] else 0
  }

  function Happens(w: World, h: Happening): World {
    match h
    case Other(step) => w.(tables := w.tables.(db := Next(w.tables.db, step)))
    case Deliver(m, txId, s, fate) =>
      match Consume(w.tables, m, txId, s)
      case Failure(_) => w
      case Success(t) =>
        if fate.Lost? then w
        else
          World(t, if fate.Acknowledged? then w.deleted + {(m.id, m.body)} else w.deleted,
                if m.id in w.tables.inbox then w.driven else w.driven[m.id := TimesDriven(w, m.id) + 1])
  }

  function Through(w: World, hs: seq<Happening>): World
    decreases |hs|
  {
    if hs == [] then w else Through(Happens(w, hs[0]), hs[1..])
  }

  /** Deleted messages are in the inbox with their body; a message drove the domain at most once. */
  ghost predicate InboxSafe(w: World) {
    && (forall d | d in w.deleted :: d.0 in w.tables.inbox && w.tables.inbox[d.0].body == d.1)
    && (forall id | id in w.driven :: w.driven[id] <= 1 && id in w.tables.inbox)
  }

  /** Bodies in the inbox are never replaced. */
  ghost predicate BodiesKept(a: map<string, InboxRow>, b: map<string, InboxRow>) {
    forall id | id in a :: id in b && b[id].body == a[id].body
  }

  lemma DeliveryIsSafe(w: World, h: Happening)
    requires InboxSafe(w)
    ensures InboxSafe(Happens(w, h)) && BodiesKept(w.tables.inbox, Happens(w, h).tables.inbox)
  {
    if h.Deliver? && Consume(w.tables, h.m, h.txId, h.s).Success? {
      CommitLeavesInboxRow(w.tables, h.m, h.txId, h.s);
      SeenBody(w.tables, h.m, h.txId, h.s);
    }
    hide Consume;
  }

  lemma SeenBody(t: Tables, m: Message, txId: Id, s: Stamp)
    requires Consume(t, m, txId, s).Success?
    ensures m.id in t.inbox ==> t.inbox[m.id].body == m.body
  {
  }

  /**
   Inbox safety over any history: whatever is redelivered, lost or dies, a deleted message
   is one whose body the inbox holds, no message id drives the domain twice, and the body
   first recorded for an id stays.
   */
  lemma {:induction false} InboxSafety(w: World, hs: seq<Happening>)
    requires InboxSafe(w)
    ensures InboxSafe(Through(w, hs)) && BodiesKept(w.tables.inbox, Through(w, hs).tables.inbox)
    decreases |hs|
  {
    if hs != [] {
      hide InboxSafe, Happens;
      DeliveryIsSafe(w, hs[0]);
      InboxSafety(Happens(w, hs[0]), hs[1..]);
    }
  }

  /** A redelivery with another body changes nothing at all, now or after any history. */
  lemma OtherBodyChangesNothing(w: World, hs: seq<Happening>, m: Message, txId: Id, s: Stamp, fate: Fate)
    requires InboxSafe(w) && m.id in w.tables.inbox && w.tables.inbox[m.id].body != m.body
    ensures Happens(Through(w, hs), Deliver(m, txId, s, fate)) == Through(w, hs)
  {
    InboxSafety(w, hs);
    SeenMessageIsIdle(Through(w, hs).tables, m, txId, s);
    hide Consume, Through;
  }

  // ----- duplicates on both transports -----

  /** UUIDs are fresh on both transports. */
  ghost predicate Allowed(w: World, h: Happening) {
    match h
    case Other(step) => Admissible(w.tables.db, step)
    case Deliver(m, txId, s, _) => Admissible(w.tables.db, Submit(m.input, txId, s))
  }

  ghost predicate AllowedAll(w: World, hs: seq<Happening>)
    decreases |hs|
  {
    hs != [] ==> Allowed(w, hs[0]) && AllowedAll(Happens(w, hs[0]), hs[1..])
  }

  /** The domain step of a happening that is no duplicate. */
  function Effect(w: World, h: Happening): seq<Step> {
    match h
    case Other(step) => if step.Submit? && Durable(w.tables.db, step.input) then [] else [step]
    case Deliver(m, txId, s, fate) =>
      if fate.Lost? || m.id in w.tables.inbox || Consume(w.tables, m, txId, s).Failure? || Durable(w.tables.db, m.input)
      then [] else [Submit(m.input, txId, s)]
  }

  function Effects(w: World, hs: seq<Happening>): seq<Step>
    decreases |hs|
  {
    if hs == [] then [] else Effect(w, hs[0]) + Effects(Happens(w, hs[0]), hs[1..])
  }

  /** A delivery does to the domain what the same request over HTTP does, or nothing. */
  lemma DeliveryIsSubmit(w: World, h: Happening)
    requires Inv(w.tables.db, {}) && Hashed(w.tables.db) && Allowed(w, h)
    ensures Happens(w, h).tables.db == Run(w.tables.db, Effect(w, h))
    ensures AdmissibleRun(w.tables.db, Effect(w, h))
  {
    var db := w.tables.db;
    hide Inv, Hashed, Durable, AppProcess.Handle, Admissible;
    match h {
      case Other(step) =>
        if step.Submit? && Durable(db, step.input) {
          DurableStepIsIdle(db, step);
        } else {
          OneStep(db, step);
        }
      case Deliver(m, txId, s, fate) =>
        OneStep(db, Submit(m.input, txId, s));
        if Durable(db, m.input) {
          DurableStepIsIdle(db, Submit(m.input, txId, s));
        }
    }
  }

  /**
   Duplicate erasure on both transports: wallets, transactions, ledger and outbox after any
   mix of HTTP requests and deliveries, with losses and crashes, are those of the run without
   every request whose keys were already durable and without every redelivery.
   */
  lemma {:induction false} DuplicatesErased(w: World, hs: seq<Happening>)
    requires Inv(w.tables.db, {}) && Hashed(w.tables.db) && AllowedAll(w, hs)
    ensures Through(w, hs).tables.db == Run(w.tables.db, Effects(w, hs))
    ensures AdmissibleRun(w.tables.db, Effects(w, hs))
    decreases |hs|
  {
    if hs != [] {
      var h, next := hs[0], Happens(w, hs[0]);
      hide Inv, Hashed, Allowed, Effect, Happens, Run, AdmissibleRun;
      DeliveryIsSubmit(w, h);
      RunKeeps(w.tables.db, Effect(w, h));
      HashedRun(w.tables.db, Effect(w, h));
      DuplicatesErased(next, hs[1..]);
      RunConcat(w.tables.db, Effect(w, h), Effects(next, hs[1..]));
    } else {
      EmptyRun(w.tables.db);
    }
  }

  // ----- deliveries with their retries -----

  /** One delivery as it is served: its message, its attempts, and whether the delete went through. */
  datatype Service = Service(message: Message, attempts: seq<Attempt>, deleted: bool) {
    predicate Tries() {
      |attempts| > 0
    }
  }

  predicate AllTry(services: seq<Service>) {
    forall i | 0 <= i < |services| :: services[i].Tries()
  }

  function Others(steps: seq<Step>): seq<Happening> {
    if steps == [] then [] else [Other(steps[0])] + Others(steps[1..])
  }

  /** How far the last attempt got. */
  function FateOf(t: Tables, s: Service): Fate
    requires s.Tries()
  {
    var work := Consumption(s.message);
    if Within(t, work, s.attempts).result.Success? then (if s.deleted then Acknowledged else CommittedOnly)
    else if s.attempts[Made(t, work, s.attempts) - 1].ending.CommitUnseen? then CommittedOnly
    else Lost
  }

  /** A served delivery as a history: what the others did before its last attempt, then that attempt. */
  function History(t: Tables, s: Service): seq<Happening>
    requires s.Tries()
  {
    var n := Made(t, Consumption(s.message), s.attempts);
    var last := s.attempts[n - 1];
    Others(Before(s.attempts, n)) + [Deliver(s.message, last.txId, last.s, FateOf(t, s))]
  }

  lemma {:induction false} ThroughOthers(w: World, steps: seq<Step>, rest: seq<Happening>)
    ensures Through(w, Others(steps) + rest) == Through(w.(tables := Meanwhile(w.tables, steps)), rest)
    decreases |steps|
  {
    hide Next;
    if steps == [] {
      assert Others(steps) + rest == rest;
    } else {
      var hs := Others(steps) + rest;
      assert hs[0] == Other(steps[0]) && hs[1..] == Others(steps[1..]) + rest;
      ThroughOthers(Happens(w, Other(steps[0])), steps[1..], rest);
    }
  }

  /** The retry loop adds nothing: it is the others' steps and at most one delivery that counts. */
  lemma WithinIsDelivery(w: World, s: Service)
    requires s.Tries()
    ensures Through(w, History(w.tables, s)).tables == Within(w.tables, Consumption(s.message), s.attempts).tables
  {
    hide Within, Made, Before, Consume, Others, Run, Through, Happens, Performed;
    var work := Consumption(s.message);
    var n := Made(w.tables, work, s.attempts);
    var last, r := s.attempts[n - 1], Within(w.tables, work, s.attempts);
    var base := w.(tables := Meanwhile(w.tables, Before(s.attempts, n)));
    var h := Deliver(s.message, last.txId, last.s, FateOf(w.tables, s));
    AtMostOneAttemptCounts(w.tables, work, s.attempts);
    LastAttempt(base, s.message, last, r, h.fate);
    ThroughOthers(w, Before(s.attempts, n), [h]);
    OneHappening(base, h);
  }

  lemma LastAttempt(w: World, m: Message, last: Attempt, r: Tried, fate: Fate)
    requires var did := Performed(w.tables, Consumption(m), last);
      && (r.result.Success? ==> did == Success(r.tables))
      && (r.result.Failure? && last.ending.CommitUnseen? && did.Success? ==> did == Success(r.tables))
      && (r.result.Failure? && !(last.ending.CommitUnseen? && did.Success?) ==> r.tables == w.tables)
    requires fate.Lost? <==> r.result.Failure? && !last.ending.CommitUnseen?
    ensures Happens(w, Deliver(m, last.txId, last.s, fate)).tables == r.tables
  {
    hide Consume;
  }

  lemma OneHappening(w: World, h: Happening)
    ensures Through(w, [h]) == Happens(w, h)
  {
    hide Happens;
  }

  /** The tables after serving deliveries one after the other, each with its retries. */
  function Served(t: Tables, services: seq<Service>): Tables
    requires AllTry(services)
    decreases |services|
  {
    if services == [] then t
    else Served(Within(t, Consumption(services[0].message), services[0].attempts).tables, services[1..])
  }

  function Histories(t: Tables, services: seq<Service>): seq<Happening>
    requires AllTry(services)
    decreases |services|
  {
    if services == [] then []
    else
      History(t, services[0]) +
      Histories(Within(t, Consumption(services[0].message), services[0].attempts).tables, services[1..])
  }

  lemma {:induction false} ThroughConcat(w: World, a: seq<Happening>, b: seq<Happening>)
    ensures Through(w, a + b) == Through(Through(w, a), b)
    decreases |a|
  {
    hide Happens;
    if a == [] {
      assert a + b == b;
    } else {
      assert (a + b)[0] == a[0] && (a + b)[1..] == a[1..] + b;
      ThroughConcat(Happens(w, a[0]), a[1..], b);
    }
  }

  /** Serving any deliveries, retries and all, is one of the histories above. */
  lemma {:induction false} ServicesAreHistory(w: World, services: seq<Service>)
    requires AllTry(services)
    ensures Through(w, Histories(w.tables, services)).tables == Served(w.tables, services)
    decreases |services|
  {
    if services != [] {
      hide Through, History, Within;
      var first := History(w.tables, services[0]);
      WithinIsDelivery(w, services[0]);
      ServicesAreHistory(Through(w, first), services[1..]);
      ThroughConcat(w, first, Histories(Through(w, first).tables, services[1..]));
    }
  }

  /** So a served message drives the domain at most once, and what is deleted is recorded, retries and all. */
  lemma ServedSafely(w: World, services: seq<Service>)
    requires InboxSafe(w) && AllTry(services)
    ensures InboxSafe(Through(w, Histories(w.tables, services)))
    ensures BodiesKept(w.tables.inbox, Served(w.tables, services).inbox)
  {
    hide Histories, Served, Through, InboxSafe, BodiesKept;
    ServicesAreHistory(w, services);
    InboxSafety(w, Histories(w.tables, services));
  }

  /**
   A message for a wallet that does not exist is not consumed: after any deadlocks its
   transaction rolls back, tables and inbox stay as they are, and it is left for redelivery.
   */
  lemma UnknownWalletIsLeft(t: Tables, m: Message, attempts: seq<Attempt>, k: nat)
    requires |attempts| == 3 && k < 3 && attempts[k].ending.Quiet?
    requires forall j: nat | j < k ::
      attempts[j].ending in {StatementFails(DeadlockDetected), StatementFails(SerializationFailure)}
    requires var base, a := Meanwhile(t, Before(attempts, k + 1)), attempts[k];
      && Inv(base.db, {}) && a.s.Usable() && a.txId !in base.db.wallets && m.id !in base.inbox
      && Prepare(m.input, a.txId, a.s.now).Success? && m.input.walletId !in base.db.wallets
      && !Answers.KeyKnown(base.db, m.input) && !Answers.ExternalKnown(base.db, m.input)
    ensures Within(t, Consumption(m), attempts) ==
      Tried(Meanwhile(t, Before(attempts, k + 1)), Failure(Broke(Domain(WalletNotFound))))
  {
    hide Inv, Run, Within, Made, Before, Prepare, Consume, Answers.KeyKnown, Answers.ExternalKnown;
    var base, a := Meanwhile(t, Before(attempts, k + 1)), attempts[k];
    Answers.FirstDelivery(base, m, a.txId, a.s);
    RetriedAfterDeadlocks(t, Consumption(m), attempts, k, Consume(base, m, a.txId, a.s));
  }
}

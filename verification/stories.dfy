/**
 Runs that show what can go wrong: each state here is committed by the use cases from an
 empty database, and each exception of the guarantees is met in one of them.
 */
module Stories {
  import opened Wrappers
  import opened Apperr
  import opened DomainMoney
  import opened DomainWagering
  import opened DomainWallet
  import opened DomainEvent
  import opened Postgres
  import opened AppProcess
  import opened AppResolve
  import opened AppOpen
  import opened Invariants
  import opened Settlement
  import opened Openings
  import opened Runs
  import opened History
  import opened Replays
  import opened Parking
  import opened Outcomes
  import opened Locking
  import opened Schedules
  import EntryIds
  import Guarantees
  import Interleavings
  import Overlaps

  // ----- what a request leaves as it is -----

  /** Besides its own row, keys and retry row, a request changes its wallet's balance and ledger at most. */
  lemma RequestFrame(db: Database, input: WagerInput, txId: Id, s: Stamp)
    requires Inv(db, {}) && txId !in db.wallets
    requires Process(db, input, txId, s).Success? && !Process(db, input, txId, s).value.result.replay
    ensures var d, t := Process(db, input, txId, s).value.db, Process(db, input, txId, s).value.result.tx;
      && d.txs == db.txs[txId := t] && Carries(t, input)
      && d.byExternal == db.byExternal[(input.providerId, input.externalId) := txId]
      && d.byKey == db.byKey[(input.providerId, input.idempotencyKey) := txId]
      && (input.kind == Bet || input.kind == Win || t.status != Processed ==> d.reversalOf == db.reversalOf)
  {
    hide Inv, Process, Landed, FinalOutbox, FinalRetries;
    SubmitAddsRow(db, input, txId, s);
    PreparedRow(input, txId, s.now);
    hide Prepare;
  }

  // ----- one wallet, one round -----

  const BRL: Currency := "BRL"
  const USD: Currency := "USD"

  function Wager(kind: Kind, name: string, reference: string): WagerInput {
    WagerInput("provider", name, name, 2, 1, "round", "game", kind, Money(30, BRL), reference, "", 0)
  }

  /** The n-th supply of UUIDs. */
  function Stamped(n: nat): Stamp {
    Stamp(Ids(100 + n, 200 + n, 300 + n), "", 0, n)
  }

  /** Wallet 1 of player 2 with this balance, n rows from id 3 on under these names, no reversal yet. */
  ghost predicate Stage(db: Database, balance: int, names: map<(string, string), Id>, n: nat) {
    && Inv(db, {}) && db.wallets.Keys == {1}
    && db.wallets[1].playerId == 2 && db.wallets[1].balance.currency == BRL && db.wallets[1].balance.amountMinor == balance
    && db.byExternal == names && db.byKey == names && db.reversalOf == map[]
    && (forall id | id in db.txs :: id < 3 + n)
    && (forall later: Id | later >= 100 + n :: UnusedEntry(db, later))
  }

  const FULL: OpenInput := OpenInput(2, Money(MAX_INT64, BRL), 1, 3)

  /** A wallet opened with all that fits. */
  lemma OpensFull()
    ensures Supplied(EMPTY, OpenFor(FULL, Stamped(0)))
    ensures Stage(Next(EMPTY, OpenFor(FULL, Stamped(0))), MAX_INT64, map[], 1)
  {
    EmptyIsFine();
    hide Inv, Opened, AddsBook;
    OpenKeeps(EMPTY, FULL, Stamped(0));
    OpenedAddsRows(EMPTY, FULL, Stamped(0));
    assert forall later: Id :: UnusedEntry(EMPTY, later);
    hide UnusedEntry;
    SupplyGoesOn(EMPTY, Next(EMPTY, OpenFor(FULL, Stamped(0))), OpenFor(FULL, Stamped(0)), 0);
  }

  ghost predicate Added(db: Database, d: Database, id: Id, input: WagerInput, status: Status) {
    id in d.txs && d.txs == db.txs[id := d.txs[id]] && Carries(d.txs[id], input) && d.txs[id].status == status
  }

  /** The ids after the n-th supply are still unused once it is. */
  lemma SupplyGoesOn(db: Database, d: Database, step: Step, n: nat)
    requires Inv(db, {}) && Admissible(db, step) && !step.Lease? && step.s == Stamped(n) && d == Next(db, step)
    requires forall later: Id | later >= 100 + n :: UnusedEntry(db, later)
    ensures forall later: Id | later >= 100 + n + 1 :: UnusedEntry(d, later)
  {
    hide Inv, Next, UnusedEntry, EntryIds.AddsLine;
    EntryIds.StepLine(db, step);
    forall later: Id | later >= 100 + n + 1
      ensures UnusedEntry(d, later)
    {
      EntryIds.UnusedStays(db, d, 100 + n, later);
    }
  }

  /** What happens next on the stage. */
  ghost predicate Continues(db: Database, step: Step, balance: int, names: map<(string, string), Id>, n: nat, status: Status)
    requires step.Submit?
  {
    && Supplied(db, step) && Added(db, Next(db, step), step.txId, step.input, status)
    && Stage(Next(db, step), balance, names[("provider", step.input.externalId) := step.txId], n + 1)
  }

  /** A BET or a WIN with room for it. */
  lemma Settles(db: Database, balance: int, names: map<(string, string), Id>, n: nat, kind: Kind, name: string)
    requires Stage(db, balance, names, n) && (kind == Bet || kind == Win) && name != "" && ("provider", name) !in names
    requires if kind == Bet then balance >= 30 else balance + 30 <= MAX_INT64
    ensures Continues(db, Submit(Wager(kind, name, ""), 3 + n, Stamped(n)), if kind == Bet then balance - 30 else balance + 30,
                      names, n, Processed)
  {
    hide Inv, Process, UnusedEntry;
    var input, s := Wager(kind, name, ""), Stamped(n);
    NewHere(db, balance, names, n, input);
    WalletHere(db, 1);
    PlayerStays(db, Submit(input, 3 + n, s), 1);
    OutcomeOfNewRequest(db, input, 3 + n, s);
    RequestFrame(db, input, 3 + n, s);
    StepKeeps(db, Submit(input, 3 + n, s));
    SupplyGoesOn(db, Next(db, Submit(input, 3 + n, s)), Submit(input, 3 + n, s), n);
  }

  lemma PlayerStays(db: Database, step: Step, walletId: Id)
    requires Inv(db, {}) && Admissible(db, step) && walletId in db.wallets
    ensures walletId in Next(db, step).wallets && Next(db, step).wallets[walletId].playerId == db.wallets[walletId].playerId
  {
    hide Inv, Next, RowsForward, RetriesForward, IndexesForward, LogsForward;
    StepForward(db, step);
  }

  lemma NewHere(db: Database, balance: int, names: map<(string, string), Id>, n: nat, input: WagerInput)
    requires Stage(db, balance, names, n) && ("provider", input.externalId) !in names
    requires input == Wager(input.kind, input.externalId, input.referenceExternalId) && input.externalId != ""
    requires input.kind == Bet || input.kind == Win ||
      ((input.kind == Refund || input.kind == Rollback) && input.referenceExternalId != "")
    ensures Prepare(input, 3 + n, Stamped(n).now).Success? && !Durable(db, input) && 3 + n !in db.txs
    ensures Supplied(db, Submit(input, 3 + n, Stamped(n)))
  {
    hide Inv, UnusedEntry;
  }

  /** A REFUND of something that is not there yet. */
  lemma Parks(db: Database, balance: int, names: map<(string, string), Id>, n: nat, name: string, reference: string)
    requires Stage(db, balance, names, n) && name != "" && ("provider", name) !in names
    requires reference != "" && reference != name && ("provider", reference) !in names
    ensures Continues(db, Submit(Wager(Refund, name, reference), 3 + n, Stamped(n)), balance, names, n, PendingReference)
  {
    hide Inv, Process, UnusedEntry;
    var input, s := Wager(Refund, name, reference), Stamped(n);
    NewHere(db, balance, names, n, input);
    OutcomeOfNewRequest(db, input, 3 + n, s);
    RequestFrame(db, input, 3 + n, s);
    StepKeeps(db, Submit(input, 3 + n, s));
    SupplyGoesOn(db, Next(db, Submit(input, 3 + n, s)), Submit(input, 3 + n, s), n);
  }

  // ----- a parked credit that overflows, until it does not -----

  /** Opened full; a REFUND waits for its BET; the BET makes room; a WIN fills it up again. */
  function FillUp(): seq<Step> {
    [OpenFor(FULL, Stamped(0)),
     Submit(Wager(Refund, "refund", "bet"), 4, Stamped(1)),
     Submit(Wager(Bet, "bet", ""), 5, Stamped(2)),
     Submit(Wager(Win, "win-", ""), 6, Stamped(3))]
  }

  /** One more BET. */
  function MakeRoom(): seq<Step> {
    FillUp() + [Submit(Wager(Bet, "again", ""), 7, Stamped(4))]
  }

  /** The REFUND is parked, its BET is processed and not reversed. */
  ghost predicate RefundWaits(db: Database) {
    && 4 in db.txs && 5 in db.txs
    && Carries(db.txs[4], Wager(Refund, "refund", "bet")) && db.txs[4].status == PendingReference
    && Carries(db.txs[5], Wager(Bet, "bet", "")) && db.txs[5].status == Processed && db.txs[5].id == 5
  }

  lemma {:induction false} OneStepMore(db: Database, steps: seq<Step>, last: Step)
    requires SuppliedRun(db, steps) && Supplied(Run(db, steps), last)
    ensures SuppliedRun(db, steps + [last]) && Run(db, steps + [last]) == Next(Run(db, steps), last)
    decreases |steps|
  {
    hide Next, Supplied;
    if steps == [] {
      assert (steps + [last])[1..] == [];
    } else {
      assert (steps + [last])[0] == steps[0] && (steps + [last])[1..] == steps[1..] + [last];
      OneStepMore(Next(db, steps[0]), steps[1..], last);
    }
  }

  /** The first two steps. */
  lemma Waiting()
    ensures SuppliedRun(EMPTY, FillUp()[..2])
    ensures Stage(Run(EMPTY, FillUp()[..2]), MAX_INT64, map[("provider", "refund") := 4], 2)
    ensures var d := Run(EMPTY, FillUp()[..2]);
      4 in d.txs && Carries(d.txs[4], Wager(Refund, "refund", "bet")) && d.txs[4].status == PendingReference
  {
    hide Next, Stage, Supplied;
    var steps := FillUp();
    OpensFull();
    OneStepMore(EMPTY, [], steps[0]);
    Parks(Next(EMPTY, steps[0]), MAX_INT64, map[], 1, "refund", "bet");
    OneStepMore(EMPTY, [] + [steps[0]], steps[1]);
    assert steps[..2] == [] + [steps[0]] + [steps[1]];
  }

  /** The third: the BET is there. */
  lemma Arrived()
    ensures SuppliedRun(EMPTY, FillUp()[..3])
    ensures Stage(Run(EMPTY, FillUp()[..3]), MAX_INT64 - 30, map[("provider", "refund") := 4, ("provider", "bet") := 5], 3)
    ensures RefundWaits(Run(EMPTY, FillUp()[..3]))
  {
    hide Next, Stage, Supplied, Run, SuppliedRun, Carries;
    var steps, names := FillUp(), map[("provider", "refund") := 4];
    Waiting();
    Settles(Run(EMPTY, steps[..2]), MAX_INT64, names, 2, Bet, "bet");
    OneStepMore(EMPTY, steps[..2], steps[2]);
    assert steps[..3] == steps[..2] + [steps[2]];
    assert names[("provider", "bet") := 5] == map[("provider", "refund") := 4, ("provider", "bet") := 5];
    StageKeys(Run(EMPTY, steps[..3]), MAX_INT64 - 30, names[("provider", "bet") := 5], 3);
  }

  lemma StageKeys(db: Database, balance: int, names: map<(string, string), Id>, n: nat)
    requires Stage(db, balance, names, n)
    ensures db.Keyed() && Inv(db, {})
  {
    hide Indexed, Shapes, Reversals, Chains, Booked, Announced, WalletRow;
  }

  /** All four. */
  lemma Filled()
    ensures SuppliedRun(EMPTY, FillUp())
    ensures Stage(Run(EMPTY, FillUp()), MAX_INT64,
                  map[("provider", "refund") := 4, ("provider", "bet") := 5, ("provider", "win-") := 6], 4)
    ensures RefundWaits(Run(EMPTY, FillUp()))
  {
    hide Next, Stage, Supplied, Run, SuppliedRun;
    var steps, names := FillUp(), map[("provider", "refund") := 4, ("provider", "bet") := 5];
    Arrived();
    Settles(Run(EMPTY, steps[..3]), MAX_INT64 - 30, names, 3, Win, "win-");
    OneStepMore(EMPTY, steps[..3], steps[3]);
    assert steps == steps[..3] + [steps[3]];
    assert names[("provider", "win-") := 6] ==
      map[("provider", "refund") := 4, ("provider", "bet") := 5, ("provider", "win-") := 6];
  }

  lemma RoomMade()
    ensures SuppliedRun(EMPTY, MakeRoom())
    ensures Stage(Run(EMPTY, MakeRoom()), MAX_INT64 - 30,
                  map[("provider", "refund") := 4, ("provider", "bet") := 5, ("provider", "win-") := 6,
                      ("provider", "again") := 7], 5)
    ensures RefundWaits(Run(EMPTY, MakeRoom()))
  {
    hide Next, Stage, Supplied, Run, SuppliedRun;
    var names := map[("provider", "refund") := 4, ("provider", "bet") := 5, ("provider", "win-") := 6];
    Filled();
    Settles(Run(EMPTY, FillUp()), MAX_INT64, names, 4, Bet, "again");
    OneStepMore(EMPTY, FillUp(), Submit(Wager(Bet, "again", ""), 7, Stamped(4)));
    assert names[("provider", "again") := 7] ==
      map[("provider", "refund") := 4, ("provider", "bet") := 5, ("provider", "win-") := 6, ("provider", "again") := 7];
  }

  /** Whether the waiting REFUND overflows is a matter of the balance alone. */
  lemma OverflowIsBalance(db: Database, balance: int, names: map<(string, string), Id>, n: nat)
    requires Stage(db, balance, names, n) && RefundWaits(db) && ("provider", "bet") in names && names[("provider", "bet")] == 5
    ensures CreditOverflows(db, db.txs[4]) <==> balance + 30 > MAX_INT64
    ensures ReferenceOf(db, db.txs[4]) == Some(db.txs[5])
  {
    hide Inv;
  }

  /** A supplied run from the empty database is committed by a schedule. */
  lemma RunIsReached(steps: seq<Step>) returns (actions: seq<Action>)
    requires SuppliedRun(EMPTY, steps)
    ensures Interleavings.EnabledRun(Interleavings.Start(EMPTY), actions)
    ensures Interleavings.Ran(Interleavings.Start(EMPTY), actions).db == Run(EMPTY, steps)
    ensures Interleavings.Ran(Interleavings.Start(EMPTY), actions).running == map[]
    ensures Guarantees.Reached(Run(EMPTY, steps))
  {
    hide Run, SuppliedRun, Interleavings.EnabledRun, Interleavings.Ran;
    EmptyIsFine();
    actions := RunIsSchedule(Interleavings.Start(EMPTY), steps);
  }

  /** It happens: a committed state in which every execution of a parked row fails. */
  lemma OverflowHappens(max: int, s: Stamp)
    requires s.Usable()
    ensures var db := Run(EMPTY, FillUp());
      Guarantees.Reached(db) && IsParked(db, 4) && CreditOverflows(db, db.txs[4]) && Resolve(db, 4, max, s).Failure?
  {
    hide Run, SuppliedRun, Stage, Resolve, Guarantees.Reached, CreditOverflows;
    Filled();
    var actions := RunIsReached(FillUp());
    OverflowIsBalance(Run(EMPTY, FillUp()), MAX_INT64,
                      map[("provider", "refund") := 4, ("provider", "bet") := 5, ("provider", "win-") := 6], 4);
    Guarantees.NextExecution(Run(EMPTY, FillUp()), 4, max, s);
  }

  /** And it passes: one more BET makes room, and any execution pays the same row out. */
  lemma OverflowPassed(max: int, s: Stamp)
    requires s.Usable()
    ensures Guarantees.Reached(Run(EMPTY, MakeRoom())) && MakeRoom()[..4] == FillUp()
    ensures match Resolve(Run(EMPTY, MakeRoom()), 4, max, s)
      case Failure(_) => false
      case Success(d) => 4 in d.txs && d.txs[4].status == Processed && d.txs[4].resultBalance == Some(MAX_INT64)
  {
    hide Run, SuppliedRun, Stage, Resolve, Guarantees.Reached, CreditOverflows;
    var db, names := Run(EMPTY, MakeRoom()),
      map[("provider", "refund") := 4, ("provider", "bet") := 5, ("provider", "win-") := 6, ("provider", "again") := 7];
    RoomMade();
    var actions := RunIsReached(MakeRoom());
    PaysOut(db, MAX_INT64 - 30, names, 5, max, s);
  }

  /** With room the waiting REFUND is paid out. */
  lemma PaysOut(db: Database, balance: int, names: map<(string, string), Id>, n: nat, max: int, s: Stamp)
    requires Stage(db, balance, names, n) && RefundWaits(db) && ("provider", "bet") in names && names[("provider", "bet")] == 5
    requires s.Usable() && balance + 30 <= MAX_INT64
    ensures Inv(db, {}) && IsParked(db, 4)
    ensures match Resolve(db, 4, max, s)
      case Failure(_) => false
      case Success(d) =>
        4 in d.txs && d.txs[4].status == Processed && d.txs[4].IsReversal() && d.txs[4].resultBalance == Some(balance + 30)
  {
    hide Inv, Write, Landable, Justified, ReferenceOf, FinalOutbox, FinalRetries;
    OverflowIsBalance(db, balance, names, n);
    ResolveCases(db, 4, max, s);
    ParkedRow(db, 4);
    WalletHere(db, 1);
  }

  // ----- an overlap that overwrites -----

  /** Under the invariant a row with a ledger line is processed. */
  lemma LinesAreProcessed(db: Database, id: Id)
    requires Inv(db, {}) && id in db.txs && db.HasEntry(db.txs[id].walletId, id)
    ensures db.txs[id].status == Processed
  {
    hide Indexed, Shapes, Reversals, Chains, Announced, Distinct, OpensFirst, WalletRow;
    var walletId := db.txs[id].walletId;
    var i :| 0 <= i < |db.Ledger(walletId)| && db.Ledger(walletId)[i].transactionId == id;
    assert Lined(db, walletId);
    assert LineOfRow(db, walletId, db.Ledger(walletId)[i]);
  }

  /**
   From an empty database, without the guard: the REFUND is parked, its BET arrives, and two
   executions overlap. One pays the REFUND out, the other rejects it all the same. The money
   stays paid, the row says REJECTED, and the invariant is broken.
   */
  lemma OverlapHappens(max: int)
    ensures exists actions: seq<Action> ::
      Overlaps.PossibleRun(Interleavings.Start(EMPTY), actions) && Broken(Overlaps.Happened(Interleavings.Start(EMPTY), actions).db)
  {
    hide Run, SuppliedRun, Stage, Resolve, Guarantees.Reached, Interleavings.EnabledRun, Interleavings.Ran,
         Overlaps.PossibleRun, Overlaps.Happened, Inv, UnusedEntry;
    var start, steps := Interleavings.Start(EMPTY), FillUp()[..3];
    var names := map[("provider", "refund") := 4, ("provider", "bet") := 5];
    Arrived();
    var first := RunIsReached(steps);
    Overlaps.EnabledIsPossible(start, first);
    var st := Overlaps.Happened(start, first);
    PaysOut(st.db, MAX_INT64 - 30, names, 3, max, Stamped(4));
    StillUnused(st.db, MAX_INT64 - 30, names, 3);
    var settled := Resolve(st.db, 4, max, Stamped(4)).value;
    Overlaps.OverlapOverwrites(st, 4, max, Stamped(3), Stamped(4));
    var overlap: seq<Action> :| Overlaps.Overwrites(st, overlap, 4, settled);
    Overlaps.HappenedConcat(start, first, overlap);
    BrokenBy(Overlaps.Happened(st, overlap).db);
    assert Overlaps.PossibleRun(start, first + overlap);
  }

  /** The REFUND is rejected but paid, and the invariant no longer holds. */
  ghost predicate Broken(d: Database) {
    Overlaps.RejectedYetPaid(d, 4) && !Inv(d, {})
  }

  lemma BrokenBy(d: Database)
    requires Overlaps.RejectedYetPaid(d, 4)
    ensures Broken(d)
  {
    hide Inv;
    if Inv(d, {}) {
      LinesAreProcessed(d, 4);
    }
  }

  lemma StillUnused(db: Database, balance: int, names: map<(string, string), Id>, n: nat)
    requires Stage(db, balance, names, n)
    ensures UnusedEntry(db, 100 + n) && UnusedEntry(db, 101 + n)
  {
    hide Inv, UnusedEntry;
  }

  // ----- an answer that changes its currency -----

  /** A BET in dollars on the wallet in reais. */
  function InDollars(): WagerInput {
    Wager(Bet, "bet", "").(money := Money(30, USD))
  }

  /** It is rejected with the wallet's balance in reais, and answered ever after with the same number of dollars. */
  lemma CurrencyChanges(s: Stamp, again: Stamp)
    requires s.Usable() && again.Usable()
    ensures var db := Next(EMPTY, OpenFor(FULL, Stamped(0)));
      && Process(db, InDollars(), 4, s).Success?
      && var h := Process(db, InDollars(), 4, s).value;
         && h.result.tx.status == Rejected && h.result.tx.failureCode == Some(Code.CurrencyMismatch)
         && h.result.balance == Money(MAX_INT64, BRL)
         && Process(h.db, InDollars(), 5, again) == Success(Handled(h.db, WagerResult(h.result.tx, Money(MAX_INT64, USD), true)))
  {
    hide Inv, Process, Next, UnusedEntry, Hashed, Evolves, Equivalent, ReversalFate;
    OpensFull();
    var db := Next(EMPTY, OpenFor(FULL, Stamped(0)));
    DollarsAreNew(db, s.now);
    DollarsAreNew(db, again.now);
    OutcomeOfNewRequest(db, InDollars(), 4, s);
    var h := Process(db, InDollars(), 4, s).value;
    FirstAnswer(db, InDollars(), 4, s);
    DollarsKept(db, s);
    ReplayIsStable(h.db, h.db, 4, InDollars(), 5, again);
  }

  lemma DollarsKept(db: Database, s: Stamp)
    requires db == Next(EMPTY, OpenFor(FULL, Stamped(0))) && Inv(db, {}) && 4 !in db.wallets
    requires s.Usable() && Process(db, InDollars(), 4, s).Success?
    ensures var d := Process(db, InDollars(), 4, s).value.db; Inv(d, {}) && Hashed(d) && Evolves(d, d)
  {
    hide Inv, Process, Open, Evolves;
    EmptyIsFine();
    assert Hashed(EMPTY);
    hide Hashed;
    HashedStep(EMPTY, OpenFor(FULL, Stamped(0)));
    HashedStep(db, Submit(InDollars(), 4, s));
    StepKeeps(db, Submit(InDollars(), 4, s));
    InvForward(Process(db, InDollars(), 4, s).value.db);
  }

  lemma DollarsAreNew(db: Database, now: int)
    requires Stage(db, MAX_INT64, map[], 1)
    ensures Prepare(InDollars(), 4, now).Success? && Prepare(InDollars(), 5, now).Success?
    ensures !Durable(db, InDollars()) && 4 !in db.txs && 4 !in db.wallets && 1 in db.wallets
  {
    hide Inv, UnusedEntry;
  }

  // ----- a LOSS and a ROLLBACK -----

  function Lost(name: string): WagerInput {
    Wager(Loss, name, "").(money := Money(0, BRL))
  }

  /** A LOSS is recorded and moves nothing. */
  lemma Loses(db: Database, balance: int, names: map<(string, string), Id>, n: nat, name: string)
    requires Stage(db, balance, names, n) && name != "" && ("provider", name) !in names
    ensures Continues(db, Submit(Lost(name), 3 + n, Stamped(n)), balance, names, n, Processed)
  {
    hide Inv, Process, UnusedEntry;
    var input, s := Lost(name), Stamped(n);
    LossIsNew(db, balance, names, n, name);
    WalletHere(db, 1);
    OutcomeOfNewRequest(db, input, 3 + n, s);
    RequestFrame(db, input, 3 + n, s);
    StepKeeps(db, Submit(input, 3 + n, s));
    SupplyGoesOn(db, Next(db, Submit(input, 3 + n, s)), Submit(input, 3 + n, s), n);
  }

  lemma LossIsNew(db: Database, balance: int, names: map<(string, string), Id>, n: nat, name: string)
    requires Stage(db, balance, names, n) && name != "" && ("provider", name) !in names
    ensures Prepare(Lost(name), 3 + n, Stamped(n).now).Success? && !Durable(db, Lost(name)) && 3 + n !in db.txs
    ensures Supplied(db, Submit(Lost(name), 3 + n, Stamped(n)))
  {
    hide Inv, UnusedEntry;
  }

  /** A ROLLBACK of a processed BET gives its money back. */
  lemma RollsBack(db: Database, balance: int, names: map<(string, string), Id>, n: nat, name: string, bet: string)
    requires Stage(db, balance, names, n) && name != "" && bet != "" && name != bet
    requires ("provider", name) !in names && ("provider", bet) in names && balance + 30 <= MAX_INT64
    requires var r := names[("provider", bet)];
      r in db.txs && db.txs[r].id == r && Carries(db.txs[r], Wager(Bet, bet, "")) && db.txs[r].status == Processed
    ensures var step := Submit(Wager(Rollback, name, bet), 3 + n, Stamped(n));
      && Supplied(db, step) && Added(db, Next(db, step), 3 + n, Wager(Rollback, name, bet), Processed)
      && 1 in Next(db, step).wallets && Next(db, step).wallets[1].balance == Money(balance + 30, BRL)
  {
    hide Inv, Process, UnusedEntry, HasReversal;
    var input, s, r := Wager(Rollback, name, bet), Stamped(n), names[("provider", bet)];
    NewHere(db, balance, names, n, input);
    WalletHere(db, 1);
    IndexIsRows(db, {}, r);
    OutcomeOfNewRequest(db, input, 3 + n, s);
    RequestFrame(db, input, 3 + n, s);
  }

  /** Opened full, a BET, a LOSS, and the BET rolled back. */
  function LoseAndRollBack(): seq<Step> {
    [OpenFor(FULL, Stamped(0)),
     Submit(Wager(Bet, "bet", ""), 4, Stamped(1)),
     Submit(Lost("loss"), 5, Stamped(2)),
     Submit(Wager(Rollback, "rollback", "bet"), 6, Stamped(3))]
  }

  lemma BetAndLoss()
    ensures SuppliedRun(EMPTY, LoseAndRollBack()[..3])
    ensures Stage(Run(EMPTY, LoseAndRollBack()[..3]), MAX_INT64 - 30, map[("provider", "bet") := 4, ("provider", "loss") := 5], 3)
    ensures var d := Run(EMPTY, LoseAndRollBack()[..3]);
      && 4 in d.txs && Carries(d.txs[4], Wager(Bet, "bet", "")) && d.txs[4].status == Processed
      && 5 in d.txs && Carries(d.txs[5], Lost("loss")) && d.txs[5].status == Processed
  {
    hide Next, Stage, Supplied, Carries;
    var steps, names := LoseAndRollBack(), map[("provider", "bet") := 4];
    OpensFull();
    OneStepMore(EMPTY, [], steps[0]);
    var d0 := Next(EMPTY, steps[0]);
    Settles(d0, MAX_INT64, map[], 1, Bet, "bet");
    hide Run, SuppliedRun;
    OneStepMore(EMPTY, [] + [steps[0]], steps[1]);
    var d1 := Next(d0, steps[1]);
    Loses(d1, MAX_INT64 - 30, names, 2, "loss");
    OneStepMore(EMPTY, [] + [steps[0]] + [steps[1]], steps[2]);
    assert steps[..3] == [] + [steps[0]] + [steps[1]] + [steps[2]];
    assert names[("provider", "loss") := 5] == map[("provider", "bet") := 4, ("provider", "loss") := 5];
  }

  lemma RolledBack(d: Database)
    requires Stage(d, MAX_INT64 - 30, map[("provider", "bet") := 4, ("provider", "loss") := 5], 3)
    requires 4 in d.txs && Carries(d.txs[4], Wager(Bet, "bet", "")) && d.txs[4].status == Processed
    requires 5 in d.txs && d.txs[5].kind == Loss && d.txs[5].status == Processed
    ensures var step := Submit(Wager(Rollback, "rollback", "bet"), 6, Stamped(3));
      Supplied(d, step) && Ending(Next(d, step))
  {
    hide Next, Stage, Supplied, Carries, Inv;
    var names := map[("provider", "bet") := 4, ("provider", "loss") := 5];
    StageKeys(d, MAX_INT64 - 30, names, 3);
    RollsBack(d, MAX_INT64 - 30, names, 3, "rollback", "bet");
    CarriesKind(Next(d, Submit(Wager(Rollback, "rollback", "bet"), 6, Stamped(3))).txs[6], Wager(Rollback, "rollback", "bet"));
  }

  lemma CarriesKind(t: WagerTx, input: WagerInput)
    requires Carries(t, input)
    ensures t.kind == input.kind
  {
  }

  predicate Ending(d: Database) {
    && 5 in d.txs && d.txs[5].kind == Loss && d.txs[5].status == Processed
    && 6 in d.txs && d.txs[6].kind == Rollback && d.txs[6].status == Processed
    && 1 in d.wallets && d.wallets[1].balance == Money(MAX_INT64, BRL)
  }

  /** From an empty database a LOSS and a ROLLBACK are processed; the ROLLBACK leaves the wallet as it was opened. */
  lemma LossAndRollbackProcessed()
    ensures Guarantees.Reached(Run(EMPTY, LoseAndRollBack())) && Ending(Run(EMPTY, LoseAndRollBack()))
  {
    hide Next, Stage, Supplied, Run, SuppliedRun, Guarantees.Reached, Carries, Ending;
    var steps := LoseAndRollBack();
    BetAndLoss();
    CarriesKind(Run(EMPTY, steps[..3]).txs[5], Lost("loss"));
    RolledBack(Run(EMPTY, steps[..3]));
    OneStepMore(EMPTY, steps[..3], steps[3]);
    assert steps == steps[..3] + [steps[3]];
    var actions := RunIsReached(steps);
  }
}

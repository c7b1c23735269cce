/** Reading the ledger: keyset pages and reconciliation (internal/app/queries.go, ledger_repo.go). */
module Queries {
  import opened Wrappers
  import opened Apperr
  import opened DomainMoney
  import opened DomainWagering
  import opened DomainWallet
  import opened DomainEvent
  import opened Postgres
  import opened Invariants
  import opened Runs

  // ----- keyset order -----

  /** A position in (created_at, id) order. */
  datatype Key = Key(createdAt: int, id: Id) {
    predicate Before(other: Key) {
      createdAt < other.createdAt || (createdAt == other.createdAt && id < other.id)
    }
  }

  function KeyOf(e: LedgerEntry): Key {
    Key(e.createdAt, e.id)
  }

  predicate Sorted(es: seq<LedgerEntry>) {
    forall i, j | 0 <= i < j < |es| :: KeyOf(es[i]).Before(KeyOf(es[j]))
  }

  /** The table's primary key: no two entries share an id. */
  predicate DistinctIds(es: seq<LedgerEntry>) {
    forall i, j | 0 <= i < j < |es| :: es[i].id != es[j].id
  }

  /** ORDER BY created_at, id. */
  function Sort(es: seq<LedgerEntry>): seq<LedgerEntry> {
    if es == [] then [] else Place(Sort(es[..|es| - 1]), es[|es| - 1])
  }

  function Place(sorted: seq<LedgerEntry>, e: LedgerEntry): seq<LedgerEntry> {
    if sorted == [] || KeyOf(e).Before(KeyOf(sorted[0])) then [e] + sorted
    else [sorted[0]] + Place(sorted[1..], e)
  }

  lemma {:induction false} PlaceKeeps(sorted: seq<LedgerEntry>, e: LedgerEntry)
    ensures multiset(Place(sorted, e)) == multiset(sorted) + multiset{e}
    decreases |sorted|
  {
    if sorted != [] {
      assert sorted == [sorted[0]] + sorted[1..];
      if !KeyOf(e).Before(KeyOf(sorted[0])) {
        PlaceKeeps(sorted[1..], e);
      }
    }
  }

  lemma {:induction false} PlaceSorts(sorted: seq<LedgerEntry>, e: LedgerEntry)
    requires Sorted(sorted) && forall i | 0 <= i < |sorted| :: sorted[i].id != e.id
    ensures Sorted(Place(sorted, e))
    decreases |sorted|
  {
    if sorted != [] && !KeyOf(e).Before(KeyOf(sorted[0])) {
      var rest := sorted[1..];
      assert Sorted(rest);
      PlaceSorts(rest, e);
      PlaceKeeps(rest, e);
      var placed := Place(rest, e);
      forall j | 0 <= j < |placed|
        ensures KeyOf(sorted[0]).Before(KeyOf(placed[j]))
      {
        assert placed[j] in multiset(placed);
        assert placed[j] == e || placed[j] in rest;
      }
    }
  }

  /** The sorted entries are the entries, and strictly increasing. */
  lemma {:induction false} SortSorts(es: seq<LedgerEntry>)
    requires DistinctIds(es)
    ensures Sorted(Sort(es)) && multiset(Sort(es)) == multiset(es)
    decreases |es|
  {
    if es != [] {
      var init, last := es[..|es| - 1], es[|es| - 1];
      SortSorts(init);
      PlaceKeeps(Sort(init), last);
      forall i | 0 <= i < |Sort(init)|
        ensures Sort(init)[i].id != last.id
      {
        assert Sort(init)[i] in multiset(Sort(init));
        assert Sort(init)[i] in init;
      }
      PlaceSorts(Sort(init), last);
      assert es == init + [last];
    }
  }

  /** WHERE (created_at, id) > cursor. */
  function After(es: seq<LedgerEntry>, cursor: Option<Key>): seq<LedgerEntry> {
    if es == [] then []
    else (if cursor.None? || cursor.value.Before(KeyOf(es[0])) then [es[0]] else []) + After(es[1..], cursor)
  }

  function Take(es: seq<LedgerEntry>, n: int): seq<LedgerEntry> {
    if n <= 0 then [] else if |es| <= n then es else es[..n]
  }

  /** The rows of the page query. */
  function Page(db: Database, walletId: Id, cursor: Option<Key>, limit: int): seq<LedgerEntry> {
    Take(After(Sort(db.Ledger(walletId)), cursor), limit)
  }

  /** A stored row is a valid entry again. */
  predicate Readable(e: LedgerEntry) {
    e.id != NIL && e.walletId != NIL && e.transactionId != NIL && e.Sound()
  }

  // ----- the repository and the use case -----

  method ListByWallet(db: Database, walletId: Id, cursor: Option<Key>, limit: int)
    returns (r: Result<seq<LedgerEntry>, Error>)
    ensures var rows := Page(db, walletId, cursor, if limit <= 0 then 50 else limit);
      && (r.Success? <==> forall i | 0 <= i < |rows| :: Readable(rows[i]))
      && (r.Success? ==> r.value == rows)
  {
    var n := limit;
    if n <= 0 {
      n := 50;
    }
    var rows := Page(db, walletId, cursor, n);
    var out: seq<LedgerEntry> := [];
    var i := 0;
    while i < |rows|
      invariant 0 <= i <= |rows| && out == rows[..i]
      invariant forall j | 0 <= j < i :: Readable(rows[j])
    {
      var row := rows[i];
      var entry := NewLedgerEntry(row.id, row.walletId, row.transactionId, row.direction, row.amount,
                                  row.balanceBefore, row.balanceAfter, row.createdAt);
      if entry.Failure? {
        return Failure(entry.error);
      }
      out := out + [entry.value];
      i := i + 1;
    }
    return Success(out);
  }

  /** The cursor parameter: absent, undecodable, or a position. */
  datatype CursorText = Absent | Garbled | At(key: Key)

  datatype Listing = Listing(entries: seq<LedgerEntry>, next: Option<Key>)

  /** Any page size up to 200 is kept, a larger one is cut, and none means fifty. */
  function Clamp(limit: int): (n: int)
    ensures 1 <= n <= 200
    ensures 1 <= limit <= 200 ==> n == limit
    ensures limit <= 0 ==> n == 50
    ensures limit > 200 ==> n == 200
  {
    if limit <= 0 then 50 else if limit > 200 then 200 else limit
  }

  function CursorOf(text: CursorText): Option<Key> {
    if text.At? then Some(text.key) else None
  }

  predicate AllReadable(es: seq<LedgerEntry>) {
    forall i | 0 <= i < |es| :: Readable(es[i])
  }

  /** The page a call answers with, if it answers with one. */
  function Listed(db: Database, walletId: Id, cursor: CursorText, limit: int): Option<Listing> {
    var rest := After(Sort(db.Ledger(walletId)), CursorOf(cursor));
    var n := Clamp(limit);
    if cursor.Garbled? || walletId !in db.wallets || !AllReadable(Take(rest, n + 1)) then None
    else Some(Listing(Take(rest, n), if |rest| > n then Some(KeyOf(rest[n - 1])) else None))
  }

  /** At most the clamped limit of entries after the cursor; a next cursor exactly when more remain. */
  method ListLedger(db: Database, walletId: Id, cursor: CursorText, limit: int) returns (r: Result<Listing, Error>)
    ensures r.Success? <==>
      && !cursor.Garbled? && walletId in db.wallets
      && var rows := Page(db, walletId, CursorOf(cursor), Clamp(limit) + 1);
         forall i | 0 <= i < |rows| :: Readable(rows[i])
    ensures r.Success? ==>
      var rest := After(Sort(db.Ledger(walletId)), CursorOf(cursor));
      && r.value.entries == Take(rest, Clamp(limit))
      && |r.value.entries| <= Clamp(limit)
      && r.value.next == if |rest| > Clamp(limit) then Some(KeyOf(rest[Clamp(limit) - 1])) else None
    ensures match Listed(db, walletId, cursor, limit)
      case Some(page) => r == Success(page)
      case None => r.Failure?
    ensures cursor.Garbled? ==> r == Failure(Domain(InvalidInput))
    ensures !cursor.Garbled? && walletId !in db.wallets ==> r == Failure(Domain(WalletNotFound))
  {
    var n := limit;
    if n <= 0 {
      n := 50;
    }
    if n > 200 {
      n := 200;
    }
    if cursor.Garbled? {
      return Failure(Domain(InvalidInput));
    }
    if walletId !in db.wallets {
      return Failure(Domain(WalletNotFound));
    }
    var listed := ListByWallet(db, walletId, CursorOf(cursor), n + 1);
    if listed.Failure? {
      return Failure(listed.error);
    }
    var entries := listed.value;
    var next := None;
    if |entries| > n {
      next := Some(KeyOf(entries[n - 1]));
      entries := entries[..n];
    }
    return Success(Listing(entries, next));
  }

  lemma {:induction false} AfterIsIn(es: seq<LedgerEntry>, cursor: Option<Key>)
    ensures forall i | 0 <= i < |After(es, cursor)| :: After(es, cursor)[i] in es
    decreases |es|
  {
    if es != [] {
      AfterIsIn(es[1..], cursor);
    }
  }

  lemma {:induction false} SortIsIn(es: seq<LedgerEntry>)
    ensures multiset(Sort(es)) == multiset(es)
    decreases |es|
  {
    if es != [] {
      SortIsIn(es[..|es| - 1]);
      PlaceKeeps(Sort(es[..|es| - 1]), es[|es| - 1]);
      assert es == es[..|es| - 1] + [es[|es| - 1]];
    }
  }

  /** Pages of a readable ledger are readable. */
  lemma PageReadable(db: Database, walletId: Id, cursor: Option<Key>, limit: int)
    requires AllReadable(db.Ledger(walletId))
    ensures AllReadable(Page(db, walletId, cursor, limit))
  {
    var ls := db.Ledger(walletId);
    SortIsIn(ls);
    AfterIsIn(Sort(ls), cursor);
    var rest := After(Sort(ls), cursor);
    forall i | 0 <= i < |rest|
      ensures Readable(rest[i])
    {
      assert rest[i] in multiset(Sort(ls));
      assert rest[i] in ls;
    }
  }

  // ----- following the cursors -----

  /** In a sorted sequence the entries after the k-th are the rest of the sequence. */
  lemma {:induction false} AfterKey(es: seq<LedgerEntry>, k: nat)
    requires Sorted(es) && k < |es|
    ensures After(es, Some(KeyOf(es[k]))) == es[k + 1..]
    decreases |es|
  {
    if k > 0 {
      AfterKey(es[1..], k - 1);
      assert KeyOf(es[0]).Before(KeyOf(es[k]));
      assert es[1..][k..] == es[k + 1..];
    } else {
      AfterAll(es[1..], KeyOf(es[0]));
    }
  }

  lemma {:induction false} AfterAll(es: seq<LedgerEntry>, key: Key)
    requires forall i | 0 <= i < |es| :: key.Before(KeyOf(es[i]))
    ensures After(es, Some(key)) == es
    decreases |es|
  {
    if es != [] {
      AfterAll(es[1..], key);
    }
  }

  lemma {:induction false} AfterNone(es: seq<LedgerEntry>)
    ensures After(es, None) == es
    decreases |es|
  {
    if es != [] {
      AfterNone(es[1..]);
    }
  }

  /** What a client collects that follows next cursors with this limit, and in how many pages. */
  datatype Collected = Collected(entries: seq<LedgerEntry>, pages: nat)

  /** Calls with the cursor of the page before, until a page has none or a call fails. */
  ghost function Follow(db: Database, walletId: Id, cursor: CursorText, limit: int, fuel: nat): Collected
    decreases fuel
  {
    match Listed(db, walletId, cursor, limit)
    case None => Collected([], 0)
    case Some(page) =>
      if page.next.None? || fuel == 0 then Collected(page.entries, 1)
      else
        var more := Follow(db, walletId, CursorText.At(page.next.value), limit, fuel - 1);
        Collected(page.entries + more.entries, 1 + more.pages)
  }

  /** On a readable ledger every call with a decodable cursor answers. */
  lemma ListedAt(db: Database, walletId: Id, cursor: CursorText, limit: int, k: nat)
    requires walletId in db.wallets && !cursor.Garbled? && AllReadable(db.Ledger(walletId))
    requires var sorted := Sort(db.Ledger(walletId)); k <= |sorted| && After(sorted, CursorOf(cursor)) == sorted[k..]
    ensures var sorted, n := Sort(db.Ledger(walletId)), Clamp(limit);
      Listed(db, walletId, cursor, limit) ==
        if k + n < |sorted| then Some(Listing(sorted[k..k + n], Some(KeyOf(sorted[k + n - 1]))))
        else Some(Listing(sorted[k..], None))
  {
    hide Sort, After, Clamp, Readable;
    PageReadable(db, walletId, CursorOf(cursor), Clamp(limit) + 1);
    var sorted, n := Sort(db.Ledger(walletId)), Clamp(limit);
    if k + n < |sorted| {
      assert sorted[k..][..n] == sorted[k..k + n] && sorted[k..][n - 1] == sorted[k + n - 1];
    }
  }

  lemma {:induction false} FollowFrom(db: Database, walletId: Id, k: nat, cursor: CursorText, limit: int, fuel: nat)
    requires walletId in db.wallets && !cursor.Garbled? && AllReadable(db.Ledger(walletId))
    requires var sorted := Sort(db.Ledger(walletId));
      Sorted(sorted) && k <= |sorted| && After(sorted, CursorOf(cursor)) == sorted[k..] && fuel >= |sorted| - k
    ensures var sorted, f := Sort(db.Ledger(walletId)), Follow(db, walletId, cursor, limit, fuel);
      f.entries == sorted[k..] && f.pages >= 1 && Spread(|sorted| - k, f.pages, Clamp(limit))
    decreases fuel
  {
    hide Sorted, After, Clamp, Spread, Listed, Sort, AllReadable;
    var sorted, n := Sort(db.Ledger(walletId)), Clamp(limit);
    ListedAt(db, walletId, cursor, limit, k);
    if k + n < |sorted| {
      var next := CursorText.At(KeyOf(sorted[k + n - 1]));
      AfterKey(sorted, k + n - 1);
      FollowFrom(db, walletId, k + n, next, limit, fuel - 1);
      OnePageMore(|sorted| - (k + n), Follow(db, walletId, next, limit, fuel - 1).pages, n);
      assert sorted[k..k + n] + sorted[k + n..] == sorted[k..];
    } else {
      OnePage(|sorted| - k, n);
    }
  }

  lemma OnePage(count: int, n: int)
    requires 0 <= count <= n
    ensures Spread(count, 1, n)
  {
  }

  /** count entries on this many pages of n: every page but the last is full. */
  predicate Spread(count: int, pages: int, n: int) {
    (pages - 1) * n <= count <= pages * n
  }

  lemma OnePageMore(count: int, pages: int, n: int)
    requires Spread(count, pages, n)
    ensures Spread(count + n, 1 + pages, n)
  {
    assert (1 + pages) * n == pages * n + n && (pages - 1) * n == pages * n - n;
  }

  /**
   Paging an unchanging ledger: calling with the cursors from the start, with any limit, ends
   after the least number of pages and yields exactly the wallet's entries in (created_at,
   id) order, none missing and none twice.
   */
  lemma PagesAreTheLedger(db: Database, walletId: Id, limit: int, fuel: nat)
    requires walletId in db.wallets && DistinctIds(db.Ledger(walletId)) && AllReadable(db.Ledger(walletId))
    requires fuel >= |db.Ledger(walletId)|
    ensures var f := Follow(db, walletId, Absent, limit, fuel);
      && f.entries == Sort(db.Ledger(walletId)) && Sorted(f.entries)
      && multiset(f.entries) == multiset(db.Ledger(walletId))
      && Spread(|db.Ledger(walletId)|, f.pages, Clamp(limit))
  {
    hide Follow, Spread, Clamp, AllReadable;
    var ls := db.Ledger(walletId);
    SortSorts(ls);
    assert |Sort(ls)| == |multiset(Sort(ls))| == |multiset(ls)| == |ls|;
    AfterNone(Sort(ls));
    assert Sort(ls)[0..] == Sort(ls);
    FollowFrom(db, walletId, 0, Absent, limit, fuel);
  }

  // ----- reconciliation -----

  /** SUM over the wallet's lines, credits minus debits. */
  function NetSum(ls: seq<LedgerEntry>): int {
    if ls == [] then 0 else NetSum(ls[..|ls| - 1]) + ls[|ls| - 1].Net()
  }

  /** COUNT and SUM; the driver cannot scan a sum beyond int64. */
  function SumByWallet(db: Database, walletId: Id): Result<(int64, nat), Error> {
    var ls := db.Ledger(walletId);
    if Fits(NetSum(ls)) then Success((NetSum(ls), |ls|)) else Failure(Domain(InvalidInput))
  }

  datatype Reconciliation = Reconciliation(walletId: Id, stored: Money, calculated: Money, difference: Money,
                                           consistent: bool, checkedEntries: nat)

  /** Go subtracts in int64 and wraps around. */
  function Wrap(n: int): int64 {
    var m := (n - MIN_INT64) % 0x1_0000_0000_0000_0000;
    m + MIN_INT64
  }

  method ReconcileWallet(db: Database, walletId: Id) returns (r: Result<Reconciliation, Error>)
    ensures r.Success? <==> walletId in db.wallets && Fits(NetSum(db.Ledger(walletId)))
    ensures r.Success? ==>
      var stored := db.wallets[walletId].balance;
      && r.value.walletId == walletId && r.value.stored == stored
      && r.value.calculated == Money(NetSum(db.Ledger(walletId)), stored.currency)
      && r.value.difference.currency == stored.currency
      && (Fits(stored.amountMinor - NetSum(db.Ledger(walletId))) ==>
            r.value.difference.amountMinor == stored.amountMinor - NetSum(db.Ledger(walletId)))
      && (r.value.consistent <==> stored.amountMinor == NetSum(db.Ledger(walletId)))
      && r.value.checkedEntries == |db.Ledger(walletId)|
  {
    if walletId !in db.wallets {
      return Failure(Domain(WalletNotFound));
    }
    var w := db.wallets[walletId];
    var sum := SumByWallet(db, walletId);
    if sum.Failure? {
      return Failure(sum.error);
    }
    var calculated := Money(sum.value.0, w.balance.currency);
    var diffMinor := Wrap(w.balance.amountMinor - calculated.amountMinor);
    var diff := Money(diffMinor, w.balance.currency);
    return Success(Reconciliation(walletId, w.balance, calculated, diff, diff.IsZero(), sum.value.1));
  }

  /** A chain's sum is where it ends. */
  lemma {:induction false} ChainSum(ls: seq<LedgerEntry>, n: nat)
    requires n <= |ls| && (forall i | 0 <= i < |ls| :: ls[i].Sound() && ls[i].balanceBefore.amountMinor == EndOf(ls, i))
    ensures NetSum(ls[..n]) == EndOf(ls, n)
    decreases n
  {
    if n > 0 {
      ChainSum(ls, n - 1);
      assert ls[..n][..n - 1] == ls[..n - 1];
      assert ls[n - 1].Sound();
    }
  }

  /** In every reachable state the ledger sums to the stored balance, within int64: reconciliation never fails. */
  lemma ReconcilesToZero(db: Database, walletId: Id)
    requires Inv(db, {}) && walletId in db.wallets
    ensures NetSum(db.Ledger(walletId)) == db.wallets[walletId].balance.amountMinor >= 0
    ensures Fits(NetSum(db.Ledger(walletId)))
  {
    hide Indexed, Shapes, Reversals, Booked, Announced;
    assert ChainAt(db, walletId) && WalletRow(db, db.wallets[walletId]);
    var ls := db.Ledger(walletId);
    ChainSum(ls, |ls|);
    assert ls[..|ls|] == ls;
  }
}

/** The publisher's tick (internal/transport/worker/outbox.go:77-119), and how fast it drains a backlog. */
module OutboxPublisher {
  import opened Wrappers
  import opened DomainWagering
  import opened AppProcess
  import opened AppResolve
  import opened Outbox

  /** What the queue and the second transaction answer for one record, and the clock then. */
  datatype Outcome = Outcome(acknowledged: bool, committed: bool, at: int)

  /** One record of the loop: published or rescheduled, if its own transaction commits. */
  function AfterOne(rows: Rows, record: Record, o: Outcome): Rows {
    if !o.committed then rows
    else if o.acknowledged then MarkedPublished(rows, record.id, o.at)
    else MarkedFailed(rows, record.id, record.attempts, NextAttempt(record, o.at))
  }

  /** 2^n seconds after n earlier failures, 256 from the eighth on. */
  function BackoffSeconds(attempts: int): int {
    [1, 2, 4, 8, 16, 32, 64, 128, 256][if attempts < 0 then 0 else if attempts < 8 then attempts else 8]
  }

  lemma BackoffIs(attempts: nat)
    ensures Backoff(attempts) == BackoffSeconds(attempts) * 1_000_000_000
  {
    assert Shifted(2) == 4 * SECOND;
    assert Shifted(4) == 4 * Shifted(2);
    assert Shifted(6) == 4 * Shifted(4) && Shifted(5) == 2 * Shifted(4);
    assert Shifted(8) == 4 * Shifted(6) && Shifted(7) == 2 * Shifted(6);
  }

  /**
   One record told by its row alone. It is published only if its send was acknowledged and the
   mark committed; a send that failed leaves it unpublished and unlocked, with the record's
   attempts, due again after its backoff; a mark that did not commit changes nothing.
   */
  ghost predicate RecordTold(rows: Rows, after: Rows, record: Record, o: Outcome) {
    && after.Keys == rows.Keys && (forall id | id in rows && id != record.id :: after[id] == rows[id])
    && (record.id in rows ==>
          after[record.id] ==
            if !o.committed then rows[record.id]
            else if o.acknowledged then
              Row(Some(o.at), rows[record.id].nextAttemptAt, None, rows[record.id].attempts)
            else
              Row(rows[record.id].publishedAt, o.at + BackoffSeconds(record.attempts) * 1_000_000_000, None, record.attempts))
  }

  lemma OneRecord(rows: Rows, record: Record, o: Outcome)
    ensures RecordTold(rows, AfterOne(rows, record, o), record, o)
  {
    BackoffIs(if record.attempts < 0 then 0 else record.attempts);
    hide Backoff, BackoffSeconds;
    assert BackoffSeconds(record.attempts) == BackoffSeconds(if record.attempts < 0 then 0 else record.attempts) by {
      NoFewerThanNone(record.attempts);
    }
  }

  lemma NoFewerThanNone(attempts: int)
    ensures BackoffSeconds(attempts) == BackoffSeconds(if attempts < 0 then 0 else attempts)
  {
  }

  function AfterAll(rows: Rows, records: seq<Record>, outcomes: seq<Outcome>): Rows
    requires |records| == |outcomes|
    decreases |records|
  {
    if records == [] then rows else AfterAll(AfterOne(rows, records[0], outcomes[0]), records[1..], outcomes[1..])
  }

  function Ticked(rows: Rows, ids: seq<Id>, now: int, outcomes: seq<Outcome>): Rows
    requires |ids| == |outcomes| && forall id | id in ids :: id in rows
  {
    var claimed := Claimed(rows, ids, now + OUTBOX_LOCK_TTL);
    AfterAll(claimed, Records(claimed, ids), outcomes)
  }

  /** How the claim's transaction ended: rolled back, committed with its answer lost, or committed. */
  datatype ClaimEnding = RolledBack(transient: bool) | Unseen | Done

  /** One attempt at the claim: what others had locked, what the SELECT took, and how it ended. */
  datatype ClaimTry = ClaimTry(skipped: set<Id>, ids: seq<Id>, ending: ClaimEnding)

  /** The table after the claim, and the batch if the claim succeeded. */
  datatype Batch = Batch(rows: Rows, ids: Option<seq<Id>>)

  /** Another attempt only after a deadlock or a serialization failure; each starts its batch afresh. */
  function ClaimedWithin(rows: Rows, now: int, tries: seq<ClaimTry>): Batch
    requires |tries| > 0
  {
    match tries[0].ending
    case Done => Batch(Claimed(rows, tries[0].ids, now + OUTBOX_LOCK_TTL), Some(tries[0].ids))
    case Unseen => Batch(Claimed(rows, tries[0].ids, now + OUTBOX_LOCK_TTL), None)
    case RolledBack(transient) => if transient && |tries| > 1 then ClaimedWithin(rows, now, tries[1..]) else Batch(rows, None)
  }

  ghost predicate AllSelected(rows: Rows, now: int, tries: seq<ClaimTry>) {
    forall i | 0 <= i < |tries| :: Selected(rows, now, BATCH, tries[i].skipped, tries[i].ids)
  }

  /** A batch that was claimed is the one its SELECT took, now leased; a claim that failed published nothing. */
  lemma {:induction false} ClaimedBatch(rows: Rows, now: int, tries: seq<ClaimTry>)
    requires |tries| > 0 && AllSelected(rows, now, tries)
    ensures var b := ClaimedWithin(rows, now, tries);
      && b.rows.Keys == rows.Keys && (forall id | id in rows :: b.rows[id].publishedAt == rows[id].publishedAt)
      && (b.ids.Some? ==>
            && b.rows == Claimed(rows, b.ids.value, now + OUTBOX_LOCK_TTL)
            && exists skipped :: Selected(rows, now, BATCH, skipped, b.ids.value))
      && (b.ids.None? && (forall i | 0 <= i < |tries| :: tries[i].ending.RolledBack?) ==> b.rows == rows)
    decreases |tries|
  {
    assert Selected(rows, now, BATCH, tries[0].skipped, tries[0].ids);
    if tries[0].ending.RolledBack? && tries[0].ending.transient && |tries| > 1 {
      ClaimedBatch(rows, now, tries[1..]);
    }
  }

  /** The outbox table, and the sends the queue acknowledged. */
  class Store {
    var rows: Rows
    var sends: seq<Id>

    constructor (r: Rows)
      ensures rows == r && sends == []
    {
      rows := r;
      sends := [];
    }

    method ClaimBatch(now: int, lockUntil: int, limit: int, skipped: set<Id>, ids: seq<Id>) returns (records: seq<Record>)
      requires Selected(rows, now, limit, skipped, ids)
      modifies `rows
      ensures rows == Claimed(old(rows), ids, lockUntil)
      ensures records == Records(rows, ids)
    {
      rows := Claimed(rows, ids, lockUntil);
      return Records(rows, ids);
    }

    /** The claim in a transaction of its own, tried up to three times. */
    method ClaimWithinTransaction(now: int, tries: seq<ClaimTry>) returns (records: seq<Record>, ok: bool)
      requires |tries| == 3 && AllSelected(rows, now, tries)
      modifies `rows
      ensures var b := ClaimedWithin(old(rows), now, tries);
        && rows == b.rows && (ok <==> b.ids.Some?)
        && (ok ==> (forall id | id in b.ids.value :: id in rows) && records == Records(rows, b.ids.value))
    {
      hide Selected, Claimed;
      var attempt := 0;
      records := [];
      assert tries[0..] == tries;
      while true
        invariant 0 <= attempt < |tries| && rows == old(rows)
        invariant ClaimedWithin(old(rows), now, tries) == ClaimedWithin(rows, now, tries[attempt..])
        decreases |tries| - attempt
      {
        var try, before := tries[attempt], rows;
        assert Selected(rows, now, BATCH, try.skipped, try.ids);
        assert tries[attempt..][1..] == tries[attempt + 1..];
        SelectedRows(rows, now, try.skipped, try.ids);
        records := ClaimBatch(now, now + OUTBOX_LOCK_TTL, BATCH, try.skipped, try.ids);
        match try.ending {
          case Done => return records, true;
          case Unseen => return [], false;
          case RolledBack(transient) =>
            rows := before;
            if !transient || attempt + 1 == |tries| {
              return [], false;
            }
        }
        attempt := attempt + 1;
      }
    }

    method PublishOne(record: Record, acknowledged: bool)
      modifies `sends
      ensures sends == if acknowledged then old(sends) + [record.id] else old(sends)
    {
      if acknowledged {
        sends := sends + [record.id];
      }
    }

    method MarkPublished(id: Id, at: int)
      modifies `rows
      ensures rows == MarkedPublished(old(rows), id, at)
    {
      if id in rows {
        rows := rows[id := rows[id].(publishedAt := Some(at), lockedUntil := None)];
      }
    }

    method MarkPublishFailed(id: Id, attempts: int, nextAttemptAt: int)
      modifies `rows
      ensures rows == MarkedFailed(old(rows), id, attempts, nextAttemptAt)
    {
      if id in rows {
        rows := rows[id := rows[id].(attempts := attempts, nextAttemptAt := nextAttemptAt, lockedUntil := None)];
      }
    }

    /** Sends one record and records how that went, in a transaction of its own whose failure is ignored. */
    method SendAndMark(record: Record, o: Outcome)
      modifies this
      ensures rows == AfterOne(old(rows), record, o) && RecordTold(old(rows), rows, record, o)
      ensures sends == if o.acknowledged then old(sends) + [record.id] else old(sends)
    {
      OneRecord(rows, record, o);
      PublishOne(record, o.acknowledged);
      if !o.acknowledged {
        if o.committed {
          var shift := record.attempts;
          if shift > 8 {
            shift := 8;
          }
          MarkPublishFailed(record.id, record.attempts, o.at + Shifted(if shift < 0 then 0 else shift));
        }
      } else if o.committed {
        MarkPublished(record.id, o.at);
      }
    }

    /**
     Claim, then send and mark record by record; what fails for one record does not stop the
     others, and a claim that fails ends the tick before anything is sent.
     */
    method Tick(now: int, tries: seq<ClaimTry>, outcomes: seq<Outcome>) returns (ok: bool)
      requires |tries| == 3 && AllSelected(rows, now, tries)
      requires var b := ClaimedWithin(rows, now, tries); b.ids.Some? ==> |outcomes| == |b.ids.value|
      modifies this
      ensures var b := ClaimedWithin(old(rows), now, tries);
        && (ok <==> b.ids.Some?)
        && (ok ==>
              && (forall id | id in b.ids.value :: id in old(rows))
              && rows == Ticked(old(rows), b.ids.value, now, outcomes)
              && sends == old(sends) + Acknowledged(b.ids.value, outcomes))
        && (!ok ==> rows == b.rows && sends == old(sends))
    {
      ghost var b := ClaimedWithin(rows, now, tries);
      ClaimedBatch(rows, now, tries);
      hide AfterAll, AfterOne, Acknowledged, Selected, Claimed, ClaimedWithin, AllSelected;
      var claimed: seq<Record>;
      claimed, ok := ClaimWithinTransaction(now, tries);
      if ok {
        SameKeys(old(rows), rows, b.ids.value);
        SendAll(claimed, b.ids.value, outcomes);
      }
    }

    /** The loop over the claimed records. */
    method SendAll(claimed: seq<Record>, ghost ids: seq<Id>, outcomes: seq<Outcome>)
      requires |claimed| == |ids| == |outcomes| && forall i | 0 <= i < |ids| :: claimed[i].id == ids[i]
      modifies this
      ensures rows == AfterAll(old(rows), claimed, outcomes)
      ensures sends == old(sends) + Acknowledged(ids, outcomes)
    {
      hide AfterAll, AfterOne, Acknowledged;
      var i := 0;
      assert claimed[0..] == claimed && outcomes[0..] == outcomes;
      assert Acknowledged(ids[..0], outcomes[..0]) == [] by { NoSends(ids, outcomes); }
      while i < |claimed|
        invariant 0 <= i <= |claimed|
        invariant AfterAll(rows, claimed[i..], outcomes[i..]) == AfterAll(old(rows), claimed, outcomes)
        invariant sends == old(sends) + Acknowledged(ids[..i], outcomes[..i])
      {
        var record, o := claimed[i], outcomes[i];
        FirstRecord(rows, claimed[i..], outcomes[i..]);
        assert claimed[i..][1..] == claimed[i + 1..] && outcomes[i..][1..] == outcomes[i + 1..];
        OneMoreSend(ids, outcomes, i);
        SendAndMark(record, o);
        i := i + 1;
      }
      assert claimed[i..] == [] && ids[..i] == ids && outcomes[..i] == outcomes;
      FirstRecord(rows, [], []);
    }
  }

  lemma SelectedRows(rows: Rows, now: int, skipped: set<Id>, ids: seq<Id>)
    requires Selected(rows, now, BATCH, skipped, ids)
    ensures forall id | id in ids :: id in rows
    ensures Claimed(rows, ids, now + OUTBOX_LOCK_TTL).Keys == rows.Keys
  {
  }

  lemma SameKeys(before: Rows, after: Rows, ids: seq<Id>)
    requires after.Keys == before.Keys && forall id | id in ids :: id in after
    ensures forall id | id in ids :: id in before
  {
  }

  lemma FirstRecord(rows: Rows, records: seq<Record>, outcomes: seq<Outcome>)
    requires |records| == |outcomes|
    ensures AfterAll(rows, records, outcomes) ==
      if records == [] then rows else AfterAll(AfterOne(rows, records[0], outcomes[0]), records[1..], outcomes[1..])
  {
  }

  lemma OneMoreSend(ids: seq<Id>, outcomes: seq<Outcome>, i: nat)
    requires i < |ids| == |outcomes|
    ensures Acknowledged(ids[..i + 1], outcomes[..i + 1]) ==
      Acknowledged(ids[..i], outcomes[..i]) + (if outcomes[i].acknowledged then [ids[i]] else [])
  {
    assert ids[..i + 1][..i] == ids[..i] && outcomes[..i + 1][..i] == outcomes[..i];
  }

  lemma NoSends(ids: seq<Id>, outcomes: seq<Outcome>)
    ensures Acknowledged(ids[..0], outcomes[..0]) == []
  {
  }

  /** The ids whose send was acknowledged, in order. */
  function Acknowledged(ids: seq<Id>, outcomes: seq<Outcome>): seq<Id>
    requires |ids| == |outcomes|
  {
    if ids == [] then []
    else
      Acknowledged(ids[..|ids| - 1], outcomes[..|ids| - 1]) +
      (if outcomes[|ids| - 1].acknowledged then [ids[|ids| - 1]] else [])
  }

  // ----- draining a backlog -----

  predicate AllGood(outcomes: seq<Outcome>) {
    forall i | 0 <= i < |outcomes| :: outcomes[i].acknowledged && outcomes[i].committed
  }

  function Backlog(rows: Rows, now: int): set<Id> {
    set id | id in rows && rows[id].Eligible(now)
  }

  predicate PublishedIn(rows: Rows, id: Id) {
    id in rows && rows[id].publishedAt.Some?
  }

  /** When every send and mark succeeds, the loop publishes its records and touches no other row. */
  lemma {:induction false} GoodRecords(rows: Rows, records: seq<Record>, outcomes: seq<Outcome>)
    requires |records| == |outcomes| && AllGood(outcomes)
    requires forall i | 0 <= i < |records| :: records[i].id in rows
    ensures var after := AfterAll(rows, records, outcomes);
      && after.Keys == rows.Keys
      && (forall id | id in rows :: PublishedIn(rows, id) ==> PublishedIn(after, id))
      && (forall i | 0 <= i < |records| :: PublishedIn(after, records[i].id))
      && (forall id | id in rows && (forall i | 0 <= i < |records| :: records[i].id != id) :: after[id] == rows[id])
    decreases |records|
  {
    if records != [] {
      var next := AfterOne(rows, records[0], outcomes[0]);
      GoodRecords(next, records[1..], outcomes[1..]);
      assert PublishedIn(next, records[0].id);
    }
  }

  lemma GoodTick(rows: Rows, ids: seq<Id>, now: int, outcomes: seq<Outcome>)
    requires |ids| == |outcomes| && AllGood(outcomes) && forall id | id in ids :: id in rows
    ensures var after := Ticked(rows, ids, now, outcomes);
      && after.Keys == rows.Keys
      && (forall id | id in ids :: PublishedIn(after, id))
      && (forall id | id in rows && id !in ids :: after[id] == rows[id])
  {
    var claimed := Claimed(rows, ids, now + OUTBOX_LOCK_TTL);
    var records := Records(claimed, ids);
    GoodRecords(claimed, records, outcomes);
    forall id | id in ids
      ensures PublishedIn(Ticked(rows, ids, now, outcomes), id)
    {
      var i :| 0 <= i < |ids| && ids[i] == id;
      assert records[i].id == id;
    }
  }

  /** One tick of a plan: its time and what the SELECT returned. */
  datatype Plan = Plan(now: int, ids: seq<Id>, outcomes: seq<Outcome>)

  ghost predicate Planned(rows: Rows, plans: seq<Plan>, first: int, last: int)
    decreases |plans|
  {
    plans != [] ==>
      && first <= plans[0].now <= last && |plans[0].outcomes| == |plans[0].ids| && AllGood(plans[0].outcomes)
      && Selected(rows, plans[0].now, BATCH, {}, plans[0].ids)
      && Planned(Ticked(rows, plans[0].ids, plans[0].now, plans[0].outcomes), plans[1..], first, last)
  }

  ghost function Ticks(rows: Rows, plans: seq<Plan>, first: int, last: int): Rows
    requires Planned(rows, plans, first, last)
    decreases |plans|
  {
    if plans == [] then rows
    else Ticks(Ticked(rows, plans[0].ids, plans[0].now, plans[0].outcomes), plans[1..], first, last)
  }

  function SetOf(ids: seq<Id>): set<Id> {
    set id | id in ids
  }

  lemma {:induction false} DistinctCount(ids: seq<Id>)
    requires forall i, j | 0 <= i < j < |ids| :: ids[i] != ids[j]
    ensures |SetOf(ids)| == |ids|
    decreases |ids|
  {
    if ids != [] {
      var init, last := ids[..|ids| - 1], ids[|ids| - 1];
      DistinctCount(init);
      assert ids == init + [last];
      assert SetOf(ids) == SetOf(init) + {last};
    }
  }

  lemma SubsetCount(a: set<Id>, b: set<Id>)
    requires a <= b
    ensures |b - a| == |b| - |a|
  {
    assert b == a + (b - a);
  }

  /** The batch is twenty of the eligible rows, or all of them. */
  lemma SelectedCount(rows: Rows, now: int, ids: seq<Id>)
    requires Selected(rows, now, BATCH, {}, ids)
    ensures SetOf(ids) <= Backlog(rows, now) && |SetOf(ids)| == |ids|
    ensures |ids| == BATCH || Backlog(rows, now) == SetOf(ids)
    ensures forall id | id in ids :: id in rows
  {
    assert forall i, j | 0 <= i < j < |ids| :: ids[i] != ids[j];
    DistinctCount(ids);
  }

  /** A good tick takes exactly its batch out of the backlog. */
  lemma TickLeaves(rows: Rows, ids: seq<Id>, now: int, outcomes: seq<Outcome>, t: int)
    requires |ids| == |outcomes| && AllGood(outcomes) && forall id | id in ids :: id in rows
    ensures Backlog(Ticked(rows, ids, now, outcomes), t) == Backlog(rows, t) - SetOf(ids)
  {
    GoodTick(rows, ids, now, outcomes);
    var after := Ticked(rows, ids, now, outcomes);
    hide Ticked;
    forall id: Id
      ensures id in Backlog(after, t) <==> id in Backlog(rows, t) - SetOf(ids)
    {
      assert id in ids ==> PublishedIn(after, id);
    }
  }

  lemma SameBacklog(rows: Rows, first: int, now: int, last: int)
    requires first <= now <= last && Backlog(rows, first) == Backlog(rows, last)
    ensures Backlog(rows, now) == Backlog(rows, first)
  {
    assert Backlog(rows, first) <= Backlog(rows, now) <= Backlog(rows, last);
  }

  /** A tick takes twenty eligible events, or all there are. */
  lemma TickTakes(rows: Rows, p: Plan, first: int, last: int)
    requires Planned(rows, [p], first, last) && Backlog(rows, first) == Backlog(rows, last)
    ensures var after := Ticked(rows, p.ids, p.now, p.outcomes);
      && Backlog(after, first) == Backlog(after, last) == Backlog(rows, first) - SetOf(p.ids)
      && (|p.ids| == BATCH || Backlog(after, first) == {})
      && |Backlog(after, first)| == |Backlog(rows, first)| - |p.ids|
      && (forall id | id in Backlog(rows, first) && id !in Backlog(after, first) :: PublishedIn(after, id))
      && (forall id | PublishedIn(rows, id) :: PublishedIn(after, id))
  {
    var now, ids := p.now, p.ids;
    hide Ticked, Selected, Backlog;
    SameBacklog(rows, first, now, last);
    SelectedCount(rows, now, ids);
    TickLeaves(rows, ids, now, p.outcomes, first);
    TickLeaves(rows, ids, now, p.outcomes, last);
    GoodTick(rows, ids, now, p.outcomes);
    SubsetCount(SetOf(ids), Backlog(rows, first));
    StillPublished(rows, Ticked(rows, ids, now, p.outcomes), ids);
  }

  lemma StillPublished(rows: Rows, after: Rows, ids: seq<Id>)
    requires after.Keys == rows.Keys && (forall id | id in ids :: PublishedIn(after, id))
    requires forall id | id in rows && id !in ids :: after[id] == rows[id]
    ensures forall id | PublishedIn(rows, id) :: PublishedIn(after, id)
  {
  }

  /**
   n eligible events and nothing else falling due: ceil(n / 20) ticks whose sends and marks
   succeed publish them all.
   */
  lemma {:induction false} BacklogDrains(rows: Rows, plans: seq<Plan>, first: int, last: int)
    requires Planned(rows, plans, first, last) && Backlog(rows, first) == Backlog(rows, last)
    requires |plans| * BATCH >= |Backlog(rows, first)|
    ensures forall id | id in Backlog(rows, first) || PublishedIn(rows, id) :: PublishedIn(Ticks(rows, plans, first, last), id)
    decreases |plans|
  {
    if plans != [] {
      var p := plans[0];
      var after := Ticked(rows, p.ids, p.now, p.outcomes);
      assert Planned(after, [], first, last);
      TickTakes(rows, p, first, last);
      hide Backlog, Ticked, Selected;
      BacklogDrains(after, plans[1..], first, last);
    }
  }

  function Ceiling(n: nat): nat {
    (n + BATCH - 1) / BATCH
  }

  lemma DrainsInCeiling(rows: Rows, plans: seq<Plan>, first: int, last: int)
    requires Planned(rows, plans, first, last) && Backlog(rows, first) == Backlog(rows, last)
    requires |plans| == Ceiling(|Backlog(rows, first)|)
    ensures forall id | id in Backlog(rows, first) :: PublishedIn(Ticks(rows, plans, first, last), id)
  {
    BacklogDrains(rows, plans, first, last);
  }

  // ----- a tick is a piece of the protocol -----

  /** The moves of the loop: one send and one mark for each record. */
  function RecordMoves(pid: nat, outcomes: seq<Outcome>, delivered: seq<bool>): seq<Move>
    requires |outcomes| == |delivered|
    decreases |outcomes|
  {
    if outcomes == [] then []
    else
      [Send(pid, delivered[0], outcomes[0].acknowledged), Mark(pid, outcomes[0].committed, outcomes[0].at)] +
      RecordMoves(pid, outcomes[1..], delivered[1..])
  }

  /** The moves of a tick: a claim that committed, what is sent and marked if its answer was seen, and the end. */
  function TickMoves(pid: nat, now: int, tries: seq<ClaimTry>, outcomes: seq<Outcome>, delivered: seq<bool>): seq<Move>
    requires |tries| > 0 && |outcomes| == |delivered|
    decreases |tries|
  {
    match tries[0].ending
    case Done => [Claim(pid, tries[0].ids, now)] + (RecordMoves(pid, outcomes, delivered) + [Crash(pid)])
    case Unseen => [Claim(pid, tries[0].ids, now)] + [Crash(pid)]
    case RolledBack(transient) =>
      if transient && |tries| > 1 then TickMoves(pid, now, tries[1..], outcomes, delivered) else []
  }

  ghost predicate Acknowledges(outcomes: seq<Outcome>, delivered: seq<bool>) {
    |outcomes| == |delivered| && forall i | 0 <= i < |outcomes| && outcomes[i].acknowledged :: delivered[i]
  }

  /** The first move, then the rest. */
  lemma MoveFirst(p: Protocol, m: Move, rest: seq<Move>)
    requires Enabled(p, m) && EnabledAll(Outbox.Moved(p, m), rest)
    ensures EnabledAll(p, [m] + rest) && MovedAll(p, [m] + rest) == MovedAll(Outbox.Moved(p, m), rest)
  {
    hide Enabled, Outbox.Moved;
    assert ([m] + rest)[0] == m && ([m] + rest)[1..] == rest;
  }

  lemma {:induction false} MovesConcat(p: Protocol, a: seq<Move>, b: seq<Move>)
    requires EnabledAll(p, a) && EnabledAll(MovedAll(p, a), b)
    ensures EnabledAll(p, a + b) && MovedAll(p, a + b) == MovedAll(MovedAll(p, a), b)
    decreases |a|
  {
    hide Outbox.Moved;
    if a == [] {
      assert a + b == b;
    } else {
      MovesConcat(Outbox.Moved(p, a[0]), a[1..], b);
      assert (a + b)[0] == a[0] && (a + b)[1..] == a[1..] + b;
    }
  }

  /** One send and its mark do to the table what the loop's body does. */
  lemma OneRecordMoves(p: Protocol, pid: nat, o: Outcome, delivered: bool)
    requires pid in p.publishers && p.publishers[pid].rest != [] && p.publishers[pid].stage == Sending
    requires o.acknowledged ==> delivered
    ensures var send, mark := Send(pid, delivered, o.acknowledged), Mark(pid, o.committed, o.at);
      && Enabled(p, send) && Enabled(Outbox.Moved(p, send), mark)
      && var q := Outbox.Moved(Outbox.Moved(p, send), mark);
         && q.rows == AfterOne(p.rows, p.publishers[pid].rest[0], o)
         && q.publishers == p.publishers[pid := Publisher(p.publishers[pid].rest[1..], Sending)]
  {
    hide NextAttempt;
  }

  lemma {:induction false} LoopIsMoves(p: Protocol, pid: nat, outcomes: seq<Outcome>, delivered: seq<bool>)
    requires pid in p.publishers && p.publishers[pid].stage == Sending && |p.publishers[pid].rest| == |outcomes|
    requires Acknowledges(outcomes, delivered)
    ensures var moves := RecordMoves(pid, outcomes, delivered);
      && EnabledAll(p, moves)
      && var q := MovedAll(p, moves);
         q.rows == AfterAll(p.rows, p.publishers[pid].rest, outcomes) && q.publishers.Keys == p.publishers.Keys &&
         forall other | other in p.publishers && other != pid :: q.publishers[other] == p.publishers[other]
    decreases |outcomes|
  {
    if outcomes != [] {
      hide Enabled, Outbox.Moved, AfterOne;
      var send, mark := Send(pid, delivered[0], outcomes[0].acknowledged), Mark(pid, outcomes[0].committed, outcomes[0].at);
      OneRecordMoves(p, pid, outcomes[0], delivered[0]);
      var q := Outbox.Moved(Outbox.Moved(p, send), mark);
      LoopIsMoves(q, pid, outcomes[1..], delivered[1..]);
      var rest := RecordMoves(pid, outcomes[1..], delivered[1..]);
      MoveFirst(Outbox.Moved(p, send), mark, rest);
      MoveFirst(p, send, [mark] + rest);
      assert [send, mark] + rest == [send] + ([mark] + rest);
    }
  }

  /**
   What Tick does is what these moves of the protocol do: a claim, a send and a mark per
   record, or only the claim when its answer is lost, or nothing when it was rolled back. So
   everything that holds of every history of publishers holds of this one.
   */
  lemma {:induction false} TickIsMoves(p: Protocol, pid: nat, now: int, tries: seq<ClaimTry>, outcomes: seq<Outcome>,
                                       delivered: seq<bool>)
    requires |tries| > 0 && pid !in p.publishers && AllSelected(p.rows, now, tries) && Acknowledges(outcomes, delivered)
    requires var b := ClaimedWithin(p.rows, now, tries); b.ids.Some? ==> |outcomes| == |b.ids.value|
    ensures var b, moves := ClaimedWithin(p.rows, now, tries), TickMoves(pid, now, tries, outcomes, delivered);
      && EnabledAll(p, moves) && MovedAll(p, moves).publishers == p.publishers
      && (b.ids.Some? ==>
            && (forall id | id in b.ids.value :: id in p.rows)
            && MovedAll(p, moves).rows == Ticked(p.rows, b.ids.value, now, outcomes))
      && (b.ids.None? ==> MovedAll(p, moves).rows == b.rows)
    decreases |tries|
  {
    hide AfterAll, RecordMoves;
    var ids := tries[0].ids;
    assert Selected(p.rows, now, BATCH, tries[0].skipped, ids);
    SelectedIds(p.rows, now, tries[0].skipped, ids);
    match tries[0].ending {
      case RolledBack(transient) =>
        if transient && |tries| > 1 {
          TickIsMoves(p, pid, now, tries[1..], outcomes, delivered);
        }
      case Unseen => ClaimThenGone(p, pid, ids, now);
      case Done => ClaimThenLoop(p, pid, ids, now, outcomes, delivered);
    }
  }

  lemma ClaimThenGone(p: Protocol, pid: nat, ids: seq<Id>, now: int)
    requires Enabled(p, Claim(pid, ids, now)) && forall id | id in ids :: id in p.rows
    ensures var moves := [Claim(pid, ids, now)] + [Crash(pid)];
      && EnabledAll(p, moves) && MovedAll(p, moves).publishers == p.publishers
      && MovedAll(p, moves).rows == Claimed(p.rows, ids, now + OUTBOX_LOCK_TTL)
  {
    hide Selected, Claimed, Records, ClaimEvents;
    var q := Outbox.Moved(p, Claim(pid, ids, now));
    MoveFirst(q, Crash(pid), []);
    MoveFirst(p, Claim(pid, ids, now), [Crash(pid)] + []);
    assert [Crash(pid)] + [] == [Crash(pid)];
    assert q.publishers - {pid} == p.publishers;
  }

  lemma ClaimThenLoop(p: Protocol, pid: nat, ids: seq<Id>, now: int, outcomes: seq<Outcome>, delivered: seq<bool>)
    requires Enabled(p, Claim(pid, ids, now)) && (forall id | id in ids :: id in p.rows)
    requires |outcomes| == |ids| && Acknowledges(outcomes, delivered)
    ensures var moves := [Claim(pid, ids, now)] + (RecordMoves(pid, outcomes, delivered) + [Crash(pid)]);
      && EnabledAll(p, moves) && MovedAll(p, moves).publishers == p.publishers
      && MovedAll(p, moves).rows == Ticked(p.rows, ids, now, outcomes)
  {
    hide Selected, Claimed, ClaimEvents, RecordMoves, AfterAll, EnabledAll, MovedAll;
    var q, loop := Outbox.Moved(p, Claim(pid, ids, now)), RecordMoves(pid, outcomes, delivered);
    LoopIsMoves(q, pid, outcomes, delivered);
    var last := MovedAll(q, loop);
    NoMoves(Outbox.Moved(last, Crash(pid)));
    MoveFirst(last, Crash(pid), []);
    assert [Crash(pid)] + [] == [Crash(pid)];
    MovesConcat(q, loop, [Crash(pid)]);
    MoveFirst(p, Claim(pid, ids, now), loop + [Crash(pid)]);
    assert last.publishers - {pid} == p.publishers;
  }

  lemma NoMoves(p: Protocol)
    ensures EnabledAll(p, []) && MovedAll(p, []) == p
  {
  }

  /** A tick after any history is a history. */
  lemma TickExtendsHistory(ms: seq<Move>, pid: nat, now: int, tries: seq<ClaimTry>, outcomes: seq<Outcome>, delivered: seq<bool>)
    requires EnabledAll(NOTHING, ms) && |tries| > 0 && pid !in MovedAll(NOTHING, ms).publishers
    requires AllSelected(MovedAll(NOTHING, ms).rows, now, tries) && Acknowledges(outcomes, delivered)
    requires var b := ClaimedWithin(MovedAll(NOTHING, ms).rows, now, tries); b.ids.Some? ==> |outcomes| == |b.ids.value|
    ensures EnabledAll(NOTHING, ms + TickMoves(pid, now, tries, outcomes, delivered))
    ensures var p, q := MovedAll(NOTHING, ms), MovedAll(NOTHING, ms + TickMoves(pid, now, tries, outcomes, delivered));
      var b := ClaimedWithin(p.rows, now, tries);
      && q.publishers == p.publishers
      && (b.ids.Some? ==> (forall id | id in b.ids.value :: id in p.rows) && q.rows == Ticked(p.rows, b.ids.value, now, outcomes))
      && (b.ids.None? ==> q.rows == b.rows)
  {
    hide EnabledAll, MovedAll, ClaimedWithin, AllSelected, TickMoves, Ticked;
    TickIsMoves(MovedAll(NOTHING, ms), pid, now, tries, outcomes, delivered);
    MovesConcat(NOTHING, ms, TickMoves(pid, now, tries, outcomes, delivered));
  }

  // ----- the claim told by the rows -----

  /** Free to be claimed: not published, due, and not locked any more. */
  predicate Claimable(row: Row, now: int) {
    row.publishedAt == None && row.nextAttemptAt <= now && (row.lockedUntil == None || row.lockedUntil.value < now)
  }

  /** Claimed for thirty seconds with one attempt more; every other row stays. */
  ghost predicate LeasedFor(rows: Rows, after: Rows, ids: seq<Id>, now: int) {
    && after.Keys == rows.Keys
    && forall id | id in rows ::
         after[id] == if id in ids then Row(rows[id].publishedAt, rows[id].nextAttemptAt, Some(now + 30 * 1_000_000_000), rows[id].attempts + 1)
                      else rows[id]
  }

  /** At most twenty claimable rows, earliest first; one that is left out was locked, or came after all twenty. */
  lemma SelectionTold(rows: Rows, now: int, skipped: set<Id>, ids: seq<Id>)
    requires Selected(rows, now, BATCH, skipped, ids)
    ensures |ids| <= 20 && (forall id | id in ids :: id in rows && Claimable(rows[id], now) && id !in skipped)
    ensures forall i, j | 0 <= i < j < |ids| ::
      rows[ids[i]].nextAttemptAt < rows[ids[j]].nextAttemptAt ||
      (rows[ids[i]].nextAttemptAt == rows[ids[j]].nextAttemptAt && ids[i] < ids[j])
    ensures forall id | id in rows && Claimable(rows[id], now) && id !in skipped && id !in ids ::
      |ids| == 20 && forall other | other in ids :: rows[other].nextAttemptAt <= rows[id].nextAttemptAt
    ensures LeasedFor(rows, Claimed(rows, ids, now + OUTBOX_LOCK_TTL), ids, now)
  {
  }

  /** After transient failures the next claim decides: seen to commit it is the batch, otherwise the tick ends. */
  lemma {:induction false} ClaimDecides(rows: Rows, now: int, tries: seq<ClaimTry>, k: nat)
    requires k < |tries| && (forall j: nat | j < k :: tries[j].ending == RolledBack(true))
    requires k + 1 == |tries| || tries[k].ending != RolledBack(true)
    ensures var b := ClaimedWithin(rows, now, tries);
      && (tries[k].ending.Done? ==> b.ids == Some(tries[k].ids) && LeasedFor(rows, b.rows, tries[k].ids, now))
      && (tries[k].ending.Unseen? ==> b.ids == None && LeasedFor(rows, b.rows, tries[k].ids, now))
      && (tries[k].ending.RolledBack? ==> b == Batch(rows, None))
    decreases |tries|
  {
    if k > 0 {
      assert tries[0].ending == RolledBack(true);
      ClaimDecides(rows, now, tries[1..], k - 1);
    }
  }
}

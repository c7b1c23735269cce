/**
 Publishing the outbox (internal/transport/worker/outbox.go, the outbox statements of
 internal/infra/postgres/inbox_outbox_repo.go): claim a batch under a lease, send each
 event, mark it. Any number of publishers may run, and each may die at any point.
 */
module Outbox {
  import opened Wrappers
  import opened DomainWagering
  import opened AppProcess
  import opened AppResolve

  const OUTBOX_LOCK_TTL: int := 30 * SECOND
  const BATCH: int := 20

  /** The delivery columns of an outbox_events row. */
  datatype Row = Row(publishedAt: Option<int>, nextAttemptAt: int, lockedUntil: Option<int>, attempts: int) {
    predicate Eligible(now: int) {
      && publishedAt.None? && nextAttemptAt <= now
      && (lockedUntil.None? || lockedUntil.value < now)
    }
  }

  /** What a publisher remembers of a claimed event. */
  datatype Record = Record(id: Id, attempts: int)

  type Rows = map<Id, Row>

  // ----- the statements -----

  function Limit(limit: int): int {
    if limit <= 0 then 10 else limit
  }

  predicate Earlier(rows: Rows, a: Id, b: Id)
    requires a in rows && b in rows
  {
    rows[a].nextAttemptAt < rows[b].nextAttemptAt || (rows[a].nextAttemptAt == rows[b].nextAttemptAt && a < b)
  }

  /**
   What SELECT ... ORDER BY next_attempt_at, id FOR UPDATE SKIP LOCKED LIMIT may return: the
   first eligible rows nobody else is claiming at this moment.
   */
  ghost predicate Selected(rows: Rows, now: int, limit: int, skipped: set<Id>, ids: seq<Id>) {
    && |ids| <= Limit(limit)
    && (forall id | id in ids :: id in rows && rows[id].Eligible(now) && id !in skipped)
    && (forall i, j | 0 <= i < j < |ids| :: Earlier(rows, ids[i], ids[j]))
    && (forall id | id in rows && rows[id].Eligible(now) && id !in skipped && id !in ids ::
          |ids| == Limit(limit) && forall other | other in ids :: Earlier(rows, other, id))
  }

  /** The UPDATE of the claimed rows. */
  function Claimed(rows: Rows, ids: seq<Id>, lockUntil: int): Rows {
    map id | id in rows ::
      if id in ids then rows[id].(lockedUntil := Some(lockUntil), attempts := rows[id].attempts + 1) else rows[id]
  }

  function MarkedPublished(rows: Rows, id: Id, at: int): Rows {
    if id in rows then rows[id := rows[id].(publishedAt := Some(at), lockedUntil := None)] else rows
  }

  function MarkedFailed(rows: Rows, id: Id, attempts: int, nextAttemptAt: int): Rows {
    if id in rows then rows[id := rows[id].(attempts := attempts, nextAttemptAt := nextAttemptAt, lockedUntil := None)]
    else rows
  }

  function NextAttempt(record: Record, now: int): int {
    now + Backoff(if record.attempts < 0 then 0 else record.attempts)
  }

  // ----- the protocol: many publishers, one statement at a time -----

  datatype Stage = Sending | Marking(ok: bool)

  datatype Publisher = Publisher(rest: seq<Record>, stage: Stage)

  /** What happened, in order. */
  datatype Event =
    | Committed(id: Id)
    | ClaimedAt(id: Id, now: int, until: int)
    | Sent(id: Id)
    | Published(id: Id)
    | Released(id: Id)  // MarkPublishFailed

  datatype Protocol = Protocol(rows: Rows, publishers: map<nat, Publisher>, log: seq<Event>)

  datatype Move =
    | Insert(id: Id, at: int)                            // an event commits with its transaction
    | Claim(pid: nat, ids: seq<Id>, now: int)            // ids: what the SELECT returned
    | Send(pid: nat, delivered: bool, acknowledged: bool)
    | Mark(pid: nat, committed: bool, now: int)
    | Crash(pid: nat)

  /** The claims of one batch, in its order. */
  function ClaimEvents(ids: seq<Id>, now: int): seq<Event> {
    seq(|ids|, i requires 0 <= i < |ids| => ClaimedAt(ids[i], now, now + OUTBOX_LOCK_TTL))
  }

  function Records(rows: Rows, ids: seq<Id>): seq<Record>
    requires forall id | id in ids :: id in rows
  {
    seq(|ids|, i requires 0 <= i < |ids| => Record(ids[i], rows[ids[i]].attempts))
  }

  ghost predicate Enabled(p: Protocol, m: Move) {
    match m
    case Insert(id, _) => id !in p.rows
    case Claim(pid, ids, now) => pid !in p.publishers && exists skipped :: Selected(p.rows, now, BATCH, skipped, ids)
    case Send(pid, delivered, acknowledged) =>
      pid in p.publishers && p.publishers[pid].rest != [] && p.publishers[pid].stage.Sending? && (acknowledged ==> delivered)
    case Mark(pid, _, _) => pid in p.publishers && p.publishers[pid].rest != [] && p.publishers[pid].stage.Marking?
    case Crash(pid) => pid in p.publishers
  }

  function MarkedBy(p: Protocol, pid: nat, record: Record, ok: bool, now: int): Protocol {
    if ok then
      p.(rows := MarkedPublished(p.rows, record.id, now), log := p.log + [Published(record.id)])
    else
      p.(rows := MarkedFailed(p.rows, record.id, record.attempts, NextAttempt(record, now)), log := p.log + [Released(record.id)])
  }

  function Moved(p: Protocol, m: Move): Protocol
    requires m.Claim? ==> forall id | id in m.ids :: id in p.rows
    requires m.Send? || m.Mark? ==> m.pid in p.publishers && p.publishers[m.pid].rest != []
    requires m.Mark? ==> p.publishers[m.pid].stage.Marking?
  {
    match m
    case Insert(id, at) => p.(rows := p.rows[id := Row(None, at, None, 0)], log := p.log + [Committed(id)])
    case Claim(pid, ids, now) =>
      var rows := Claimed(p.rows, ids, now + OUTBOX_LOCK_TTL);
      Protocol(rows, p.publishers[pid := Publisher(Records(rows, ids), Sending)], p.log + ClaimEvents(ids, now))
    case Send(pid, delivered, acknowledged) =>
      var publisher := p.publishers[pid];
      p.(publishers := p.publishers[pid := publisher.(stage := Marking(acknowledged))],
         log := if delivered then p.log + [Sent(publisher.rest[0].id)] else p.log)
    case Mark(pid, committed, now) =>
      var publisher := p.publishers[pid];
      var next := p.(publishers := p.publishers[pid := Publisher(publisher.rest[1..], Sending)]);
      if committed then MarkedBy(next, pid, publisher.rest[0], publisher.stage.ok, now) else next
    case Crash(pid) => p.(publishers := p.publishers - {pid})
  }

  // ----- what every history satisfies -----

  /** The lease of the last claim, unless a failed publish was recorded since. */
  function LeaseOf(log: seq<Event>, id: Id): Option<int>
    decreases |log|
  {
    if log == [] then None else Leasing(LeaseOf(log[..|log| - 1], id), log[|log| - 1], id)
  }

  function Leasing(before: Option<int>, e: Event, id: Id): Option<int> {
    match e
    case ClaimedAt(x, _, until) => if x == id then Some(until) else before
    case Released(x) => if x == id then None else before
    case _ => before
  }

  /** One more event fits the history. */
  ghost predicate Follows(log: seq<Event>, e: Event) {
    match e
    case Committed(id) => Committed(id) !in log
    case ClaimedAt(id, now, until) =>
      && until == now + OUTBOX_LOCK_TTL
      && Committed(id) in log && Published(id) !in log
      && (LeaseOf(log, id).Some? ==> LeaseOf(log, id).value < now)
    case Sent(id) => Committed(id) in log
    case Published(id) => Sent(id) in log
    case Released(id) => Committed(id) in log
  }

  ghost predicate History(log: seq<Event>) {
    forall i | 0 <= i < |log| :: Follows(log[..i], log[i])
  }

  /** The row of this event agrees with the history. */
  ghost predicate AgreesAt(rows: Rows, log: seq<Event>, id: Id) {
    && (id in rows <==> Committed(id) in log)
    && (id in rows ==>
          && (rows[id].publishedAt.Some? <==> Published(id) in log)
          && (rows[id].publishedAt.None? && LeaseOf(log, id).Some? ==> rows[id].lockedUntil == LeaseOf(log, id)))
  }

  ghost predicate Agrees(rows: Rows, log: seq<Event>) {
    forall id: Id :: AgreesAt(rows, log, id)
  }

  ghost predicate PublisherOk(rows: Rows, log: seq<Event>, p: Publisher) {
    && (forall i | 0 <= i < |p.rest| :: p.rest[i].id in rows)
    && (p.rest != [] && p.stage == Marking(true) ==> Sent(p.rest[0].id) in log)
  }

  ghost predicate ProtocolInv(p: Protocol) {
    && History(p.log) && Agrees(p.rows, p.log)
    && forall pid | pid in p.publishers :: PublisherOk(p.rows, p.log, p.publishers[pid])
  }

  lemma HistoryGrows(log: seq<Event>, e: Event)
    requires History(log) && Follows(log, e)
    ensures History(log + [e])
  {
    hide Follows;
    var all := log + [e];
    forall i | 0 <= i < |all|
      ensures Follows(all[..i], all[i])
    {
      if i < |log| {
        assert all[..i] == log[..i];
      } else {
        assert all[..i] == log;
      }
    }
  }

  // ----- every move keeps the history -----

  /** Publishers only look at rows that exist and sends that happened. */
  lemma PublishersStay(p: Protocol, rows: Rows, log: seq<Event>)
    requires ProtocolInv(p) && p.rows.Keys <= rows.Keys && p.log <= log
    ensures forall pid | pid in p.publishers :: PublisherOk(rows, log, p.publishers[pid])
  {
    assert forall e | e in p.log :: e in log;
    forall pid | pid in p.publishers
      ensures PublisherOk(rows, log, p.publishers[pid])
    {
      assert PublisherOk(p.rows, p.log, p.publishers[pid]);
    }
  }

  /** What an event must do to a row. */
  ghost predicate Told(rows: Rows, after: Rows, log: seq<Event>, e: Event, id: Id) {
    match e
    case Committed(x) =>
      if x != id then SameRow(rows, after, id)
      else
        && id !in rows && id in after && after[id].publishedAt.None?
        && LeaseOf(log, id).None? && Published(id) !in log
    case ClaimedAt(x, _, until) =>
      if x != id then SameRow(rows, after, id)
      else id in rows && id in after && after[id] == rows[id].(lockedUntil := Some(until), attempts := after[id].attempts)
    case Sent(_) => SameRow(rows, after, id)
    case Published(x) =>
      if x != id then SameRow(rows, after, id)
      else id in rows && id in after && after[id].publishedAt.Some?
    case Released(x) =>
      if x != id then SameRow(rows, after, id)
      else id in rows && id in after && after[id].publishedAt == rows[id].publishedAt
  }

  lemma RowAfter(rows: Rows, after: Rows, log: seq<Event>, e: Event, id: Id)
    requires AgreesAt(rows, log, id) && Told(rows, after, log, e, id)
    ensures AgreesAt(after, log + [e], id)
  {
    assert (log + [e])[..|log|] == log;
  }

  predicate SameRow(rows: Rows, after: Rows, id: Id) {
    (id in after <==> id in rows) && (id in rows ==> after[id] == rows[id])
  }

  /** One event, told to every row, keeps rows and history in agreement. */
  lemma OneEvent(p: Protocol, after: Rows, e: Event)
    requires ProtocolInv(p) && Follows(p.log, e) && p.rows.Keys <= after.Keys
    requires forall id: Id :: Told(p.rows, after, p.log, e, id)
    ensures History(p.log + [e]) && Agrees(after, p.log + [e])
    ensures forall pid | pid in p.publishers :: PublisherOk(after, p.log + [e], p.publishers[pid])
  {
    hide History, LeaseOf, PublisherOk, Told, Follows;
    HistoryGrows(p.log, e);
    PublishersStay(p, after, p.log + [e]);
    forall id: Id
      ensures AgreesAt(after, p.log + [e], id)
    {
      RowAfter(p.rows, after, p.log, e, id);
    }
    hide AgreesAt;
  }

  lemma InsertKeeps(p: Protocol, id: Id, at: int)
    requires ProtocolInv(p) && id !in p.rows
    ensures ProtocolInv(Moved(p, Insert(id, at)))
  {
    assert AgreesAt(p.rows, p.log, id);
    NoLease(p.log, id);
    hide History, PublisherOk, Agrees;
    OneEvent(p, p.rows[id := Row(None, at, None, 0)], Committed(id));
  }

  lemma SendKeeps(p: Protocol, pid: nat, delivered: bool, acknowledged: bool)
    requires ProtocolInv(p) && Enabled(p, Send(pid, delivered, acknowledged))
    ensures ProtocolInv(Moved(p, Send(pid, delivered, acknowledged)))
  {
    var publisher, q := p.publishers[pid], Moved(p, Send(pid, delivered, acknowledged));
    var id := publisher.rest[0].id;
    assert PublisherOk(p.rows, p.log, publisher);
    assert AgreesAt(p.rows, p.log, id);
    hide History, Agrees;
    if delivered {
      OneEvent(p, p.rows, Sent(id));
    }
    assert PublisherOk(q.rows, q.log, q.publishers[pid]);
    hide PublisherOk;
  }

  lemma MarkKeeps(p: Protocol, pid: nat, committed: bool, now: int)
    requires ProtocolInv(p) && Enabled(p, Mark(pid, committed, now))
    ensures ProtocolInv(Moved(p, Mark(pid, committed, now)))
  {
    var publisher, q := p.publishers[pid], Moved(p, Mark(pid, committed, now));
    var record := publisher.rest[0];
    assert PublisherOk(p.rows, p.log, publisher);
    assert AgreesAt(p.rows, p.log, record.id);
    hide History, Agrees;
    if committed {
      if publisher.stage.ok {
        OneEvent(p, MarkedPublished(p.rows, record.id, now), Published(record.id));
      } else {
        OneEvent(p, MarkedFailed(p.rows, record.id, record.attempts, NextAttempt(record, now)), Released(record.id));
      }
    }
    assert PublisherOk(q.rows, q.log, q.publishers[pid]);
    hide PublisherOk;
  }

  /** A batch of claims, one event after the other. */
  lemma {:induction false} ClaimsFollow(rows: Rows, log: seq<Event>, ids: seq<Id>, now: int)
    requires History(log)
    requires forall id | id in ids :: id in rows && rows[id].Eligible(now) && AgreesAt(rows, log, id)
    requires forall i, j | 0 <= i < j < |ids| :: ids[i] != ids[j]
    ensures History(log + ClaimEvents(ids, now))
    ensures forall id: Id ::
      LeaseOf(log + ClaimEvents(ids, now), id) == (if id in ids then Some(now + OUTBOX_LOCK_TTL) else LeaseOf(log, id))
    decreases |ids|
  {
    if ids == [] {
      assert log + ClaimEvents(ids, now) == log;
    } else {
      var init, last := ids[..|ids| - 1], ids[|ids| - 1];
      var before, e := log + ClaimEvents(init, now), ClaimedAt(last, now, now + OUTBOX_LOCK_TTL);
      hide AgreesAt, Follows;
      ClaimsFollow(rows, log, init, now);
      assert log + ClaimEvents(ids, now) == before + [e];
      assert last !in init && ids == init + [last];
      assert AgreesAt(rows, log, last);
      OneClaimFollows(rows, log, init, last, now);
      HistoryGrows(before, e);
      hide History;
      assert (before + [e])[..|before|] == before;
    }
  }

  lemma OneClaimFollows(rows: Rows, log: seq<Event>, ids: seq<Id>, id: Id, now: int)
    requires id in rows && rows[id].Eligible(now) && AgreesAt(rows, log, id) && id !in ids
    requires LeaseOf(log + ClaimEvents(ids, now), id) == LeaseOf(log, id)
    ensures Follows(log + ClaimEvents(ids, now), ClaimedAt(id, now, now + OUTBOX_LOCK_TTL))
  {
    OnlyClaims(log, ids, now, id);
    hide LeaseOf;
  }

  lemma ClaimKeeps(p: Protocol, pid: nat, ids: seq<Id>, now: int)
    requires ProtocolInv(p) && Enabled(p, Claim(pid, ids, now))
    ensures ProtocolInv(Moved(p, Claim(pid, ids, now)))
  {
    hide History, PublisherOk, Agrees, LeaseOf;
    var skipped :| Selected(p.rows, now, BATCH, skipped, ids);
    SelectedIds(p.rows, now, skipped, ids);
    hide Selected;
    ClaimAgrees(p, ids, now);
    var rows, log := Claimed(p.rows, ids, now + OUTBOX_LOCK_TTL), p.log + ClaimEvents(ids, now);
    PublishersStay(p, rows, log);
    NewPublisherOk(rows, log, ids);
    hide ClaimEvents, Records, Claimed;
  }

  lemma SelectedIds(rows: Rows, now: int, skipped: set<Id>, ids: seq<Id>)
    requires Selected(rows, now, BATCH, skipped, ids)
    ensures forall id | id in ids :: id in rows && rows[id].Eligible(now)
    ensures forall i, j | 0 <= i < j < |ids| :: ids[i] != ids[j]
  {
  }

  lemma NewPublisherOk(rows: Rows, log: seq<Event>, ids: seq<Id>)
    requires forall id | id in ids :: id in rows
    ensures PublisherOk(rows, log, Publisher(Records(rows, ids), Sending))
  {
  }

  lemma ClaimAgrees(p: Protocol, ids: seq<Id>, now: int)
    requires History(p.log) && Agrees(p.rows, p.log)
    requires forall id | id in ids :: id in p.rows && p.rows[id].Eligible(now)
    requires forall i, j | 0 <= i < j < |ids| :: ids[i] != ids[j]
    ensures History(p.log + ClaimEvents(ids, now))
    ensures Agrees(Claimed(p.rows, ids, now + OUTBOX_LOCK_TTL), p.log + ClaimEvents(ids, now))
  {
    hide History, LeaseOf;
    var rows, log := Claimed(p.rows, ids, now + OUTBOX_LOCK_TTL), p.log + ClaimEvents(ids, now);
    ClaimsFollow(p.rows, p.log, ids, now);
    forall id: Id
      ensures AgreesAt(rows, log, id)
    {
      assert AgreesAt(p.rows, p.log, id);
      OnlyClaims(p.log, ids, now, id);
    }
    hide AgreesAt;
  }

  lemma OnlyClaims(log: seq<Event>, ids: seq<Id>, now: int, id: Id)
    ensures Committed(id) in log + ClaimEvents(ids, now) <==> Committed(id) in log
    ensures Published(id) in log + ClaimEvents(ids, now) <==> Published(id) in log
  {
  }

  lemma MoveKeeps(p: Protocol, m: Move)
    requires ProtocolInv(p) && Enabled(p, m)
    ensures ProtocolInv(Moved(p, m))
  {
    hide ProtocolInv;
    match m {
      case Insert(id, at) => InsertKeeps(p, id, at);
      case Claim(pid, ids, now) => ClaimKeeps(p, pid, ids, now);
      case Send(pid, delivered, acknowledged) => SendKeeps(p, pid, delivered, acknowledged);
      case Mark(pid, committed, now) => MarkKeeps(p, pid, committed, now);
      case Crash(pid) => CrashKeeps(p, pid);
    }
  }

  lemma CrashKeeps(p: Protocol, pid: nat)
    requires ProtocolInv(p)
    ensures ProtocolInv(Moved(p, Crash(pid)))
  {
    hide History, Agrees, PublisherOk;
  }

  ghost predicate EnabledAll(p: Protocol, ms: seq<Move>)
    decreases |ms|
  {
    ms != [] ==> Enabled(p, ms[0]) && EnabledAll(Moved(p, ms[0]), ms[1..])
  }

  ghost function MovedAll(p: Protocol, ms: seq<Move>): Protocol
    requires EnabledAll(p, ms)
    decreases |ms|
  {
    if ms == [] then p else MovedAll(Moved(p, ms[0]), ms[1..])
  }

  const NOTHING: Protocol := Protocol(map[], map[], [])

  lemma {:induction false} ProtocolKeeps(p: Protocol, ms: seq<Move>)
    requires ProtocolInv(p) && EnabledAll(p, ms)
    ensures ProtocolInv(MovedAll(p, ms))
    decreases |ms|
  {
    if ms != [] {
      hide ProtocolInv, Enabled, Moved;
      MoveKeeps(p, ms[0]);
      ProtocolKeeps(Moved(p, ms[0]), ms[1..]);
    }
  }

  /**
   At-least-once publishing, over every history of any number of publishers: what is sent
   was committed, what is published was sent, what is published is never claimed again, and
   between two claims of one event its publish failed or the first claim's lease ran out.
   */
  lemma EveryHistory(ms: seq<Move>)
    requires EnabledAll(NOTHING, ms)
    ensures var log := MovedAll(NOTHING, ms).log;
      && (forall i | 0 <= i < |log| && log[i].Sent? :: Committed(log[i].id) in log[..i])
      && (forall i | 0 <= i < |log| && log[i].Published? :: Sent(log[i].id) in log[..i])
      && (forall i, j | 0 <= i < j < |log| && log[i].Published? && log[j].ClaimedAt? :: log[i].id != log[j].id)
      && (forall i, j | 0 <= i < j < |log| && log[i].ClaimedAt? && log[j].ClaimedAt? && log[i].id == log[j].id ::
            Released(log[i].id) in log[i..j] || log[i].until < log[j].now)
  {
    assert forall id: Id :: AgreesAt(NOTHING.rows, NOTHING.log, id);
    ProtocolKeeps(NOTHING, ms);
    var log := MovedAll(NOTHING, ms).log;
    assert History(log);
    hide EnabledAll, LeaseOf, ProtocolInv;
    forall i, j | 0 <= i < j < |log| && log[i].Published? && log[j].ClaimedAt?
      ensures log[i].id != log[j].id
    {
      assert Follows(log[..j], log[j]);
      assert log[..j][i] == log[i];
    }
    forall i, j | 0 <= i < j < |log| && log[i].ClaimedAt? && log[j].ClaimedAt? && log[i].id == log[j].id
      ensures Released(log[i].id) in log[i..j] || log[i].until < log[j].now
    {
      if Released(log[i].id) !in log[i..j] {
        LeaseHolds(log, i, j);
      }
    }
    hide Follows;
  }

  /** Without a failure recorded in between, leases only get later. */
  lemma LeaseHolds(log: seq<Event>, i: nat, j: nat)
    requires History(log) && i < j < |log| && log[i].ClaimedAt? && log[j].ClaimedAt? && log[i].id == log[j].id
    requires Released(log[i].id) !in log[i..j]
    ensures log[i].until < log[j].now
  {
    forall k | i <= k < j
      ensures log[k] != Released(log[i].id)
    {
      assert log[i..j][k - i] == log[k];
    }
    assert Follows(log[..j], log[j]);
    LeaseSince(log, i, j);
  }

  lemma LeaseStep(log: seq<Event>, j: nat, id: Id)
    requires 0 < j <= |log|
    ensures LeaseOf(log[..j], id) == Leasing(LeaseOf(log[..j - 1], id), log[j - 1], id)
  {
    assert log[..j][..j - 1] == log[..j - 1];
  }

  lemma {:induction false} LeaseSince(log: seq<Event>, i: nat, j: nat)
    requires History(log) && i < j <= |log| && log[i].ClaimedAt?
    requires forall k | i <= k < j :: log[k] != Released(log[i].id)
    ensures LeaseOf(log[..j], log[i].id).Some? && log[i].until <= LeaseOf(log[..j], log[i].id).value
    decreases j
  {
    LeaseStep(log, j, log[i].id);
    hide LeaseOf;
    if j - 1 > i {
      LeaseSince(log, i, j - 1);
      assert Follows(log[..j - 1], log[j - 1]);
      hide History;
    }
  }

  lemma ShorterHistory(log: seq<Event>)
    requires History(log) && log != []
    ensures History(log[..|log| - 1]) && Follows(log[..|log| - 1], log[|log| - 1])
  {
    hide Follows;
    var init := log[..|log| - 1];
    forall i | 0 <= i < |init|
      ensures Follows(init[..i], init[i])
    {
      assert init[..i] == log[..i];
    }
  }

  /** An event that is not committed was never claimed nor published. */
  lemma {:induction false} NoLease(log: seq<Event>, id: Id)
    requires History(log) && Committed(id) !in log
    ensures LeaseOf(log, id).None? && Published(id) !in log && Sent(id) !in log
    decreases |log|
  {
    if log != [] {
      var init, last := log[..|log| - 1], log[|log| - 1];
      ShorterHistory(log);
      hide History;
      NoLease(init, id);
      assert log == init + [last];
    }
  }
}

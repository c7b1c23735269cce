/**
 What the consumer does with one message inside one SQL transaction: the inbox row and the
 domain transaction commit together (internal/transport/worker/consumer.go).
 */
module InboxTransaction {
  import opened Wrappers
  import opened Apperr
  import opened DomainMoney
  import opened DomainWagering
  import opened Postgres
  import opened AppProcess
  import opened Invariants
  import opened Runs

  /** Everything one SQL transaction may change. */
  datatype Tables = Tables(db: Database, inbox: map<string, InboxRow>)

  /** A parsed message; the inbox keeps the hash of its body. */
  datatype Message = Message(id: string, body: string, input: WagerInput)

  /** Why a transaction function fails. */
  datatype TxError = PayloadMismatch | Broke(error: Error)

  function Completed(inbox: map<string, InboxRow>, id: string): map<string, InboxRow>
    requires id in inbox
  {
    inbox[id := inbox[id].(completed := true)]
  }

  /** First seen, it drives the domain; seen before, it must be the same body; a conflict is final. */
  function Consume(t: Tables, m: Message, txId: Id, s: Stamp): Result<Tables, TxError> {
    if m.id in t.inbox then
      if t.inbox[m.id].body != m.body then Failure(PayloadMismatch)
      else Success(t.(inbox := Completed(t.inbox, m.id)))
    else
      var inbox := t.inbox[m.id := InboxRow(m.body, true)];
      match Prepare(m.input, txId, s.now)
      case Failure(e) => Failure(Broke(e))
      case Success(pending) =>
        match Handle(t.db, pending, CanonicalHash(m.input), s.(ttl := Ttl(m.input)))
        case Success(h) => Success(Tables(h.db, inbox))
        case Failure(e) =>
          if e != Domain(Conflict) then Failure(Broke(e))
          else if RefusedByInsert(t.db, pending) then Failure(Broke(Sql(InFailedTransaction)))
          else Success(Tables(t.db, inbox))
  }

  method ConsumeInTx(repos: Repositories, m: Message, txId: Id, s: Stamp) returns (r: Result<(), TxError>)
    requires repos.db.Keyed() && !repos.aborted && s.Usable()
    modifies repos`db, repos`inbox, repos`aborted
    ensures match Consume(Tables(old(repos.db), old(repos.inbox)), m, txId, s)
      case Success(t) => r == Success(()) && Tables(repos.db, repos.inbox) == t && !repos.aborted
      case Failure(e) => r == Failure(e)
  {
    hide Handle, Prepare, RefusedByInsert;
    var existing := repos.InsertInbox(m.id, m.body);
    if existing.Some? {
      if existing.value != m.body {
        return Failure(PayloadMismatch);
      }
      var done := repos.MarkCompleted(m.id);
      return Success(());
    }
    var prepared := Prepare(m.input, txId, s.now);
    match prepared {
      case Failure(e) => return Failure(Broke(e));
      case Success(pending) =>
        var out := ExecuteInTx(repos, pending, CanonicalHash(m.input), s.(ttl := Ttl(m.input)));
        match out {
          case Failure(e) =>
            if e == Domain(Conflict) {
              var done := repos.MarkCompleted(m.id);
              match done {
                case Failure(f) => return Failure(Broke(f));
                case Success(_) => return Success(());
              }
            }
            return Failure(Broke(e));
          case Success(_) =>
            var done := repos.MarkCompleted(m.id);
            return Success(());
        }
    }
  }

  /** A message already in the inbox leaves the domain alone, and with another body everything. */
  lemma SeenMessageIsIdle(t: Tables, m: Message, txId: Id, s: Stamp)
    requires m.id in t.inbox
    ensures match Consume(t, m, txId, s)
      case Success(after) => after.db == t.db && t.inbox[m.id].body == m.body
      case Failure(e) => e == PayloadMismatch && t.inbox[m.id].body != m.body
  {
  }

  /** After a commit the inbox holds the body that was delivered, completed, and no other row changed. */
  lemma CommitLeavesInboxRow(t: Tables, m: Message, txId: Id, s: Stamp)
    requires Consume(t, m, txId, s).Success?
    ensures var after := Consume(t, m, txId, s).value;
      && m.id in after.inbox && after.inbox[m.id] == InboxRow(m.body, true)
      && after.inbox == t.inbox[m.id := after.inbox[m.id]]
  {
  }
}

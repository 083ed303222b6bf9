/**
  Protected-message rows: services/api/src/repositories/protected_message_repo.rs.  Status names are text, as in the
  source.
 */
module MessageStore {
  import opened Wrappers
  import opened PaymentIntents
  import opened PaymentStore

  datatype MessageRow = MessageRow(
    id: Uuid,
    paymentIntentId: Option<Uuid>,
    senderId: Uuid,
    recipientId: Uuid,
    senderName: string,
    recipientName: string,
    payload: string,
    status: string,
    createdAt: Time,
    acknowledgedAt: Option<Time>)

  type Messages = map<Uuid, MessageRow>

  /** The statuses a row may leave for `target`; `None` for a status the repository does not know. */
  function AllowedSources(target: string): Option<seq<string>> {
    if target == "delivered" then Some(["delivered"])
    else if target == "acknowledged" then Some(["delivered", "acknowledged"])
    else if target == "claimed" then Some(["delivered", "acknowledged", "claimed"])
    else if target == "refunded" then Some(["delivered", "acknowledged", "refunded"])
    else None
  }

  predicate IsKnown(status: string) {
    status == "delivered" || status == "acknowledged" || status == "claimed" || status == "refunded"
  }

  function MessageRank(status: string): nat {
    if status == "delivered" then 0 else if status == "acknowledged" then 1 else 2
  }

  /** The allow-lists say: forwards in rank or a repetition, never from one terminal report to the other. */
  lemma AllowedSourcesByRank(from: string, to: string)
    requires IsKnown(from)
    ensures AllowedSources(to).Some? <==> IsKnown(to)
    ensures IsKnown(to) ==> (from in AllowedSources(to).value <==> from == to || MessageRank(from) < MessageRank(to))
  {
  }

  /** A row after a successful update: the first one stamps the acknowledgement. */
  function Advanced(row: MessageRow, status: string, now: Time): MessageRow {
    row.(status := status, acknowledgedAt := if row.acknowledgedAt.None? then Some(now) else row.acknowledgedAt)
  }

  function MessageUpdate(messages: Messages, id: Uuid, status: string, now: Time): (Messages, Result<(), ApiError>) {
    match AllowedSources(status)
    case None => (messages, Err(BadRequest))
    case Some(allowed) =>
      if id !in messages then (messages, Err(NotFound))
      else if messages[id].status !in allowed then (messages, Err(Conflict))
      else (messages[id := Advanced(messages[id], status, now)], Ok(()))
  }

  /**
    Exactly which updates succeed: a repetition, anything from delivered, and from acknowledged a terminal
    report.  The row gets the status, and the time of the update unless an earlier one has set it; nothing else
    changes.
   */
  lemma MessageUpdateExactly(messages: Messages, id: Uuid, status: string, now: Time)
    ensures var (after, r) := MessageUpdate(messages, id, status, now);
            var known := status in {"delivered", "acknowledged", "claimed", "refunded"};
            && after.Keys == messages.Keys
            && (forall other | other in messages && other != id :: after[other] == messages[other])
            && if !known then r == Err(BadRequest) && after == messages
               else if id !in messages then r == Err(NotFound) && after == messages
               else
                 var (old', new') := (messages[id], after[id]);
                 if || old'.status == status
                    || old'.status == "delivered"
                    || (old'.status == "acknowledged" && status in {"claimed", "refunded"})
                 then
                   && r == Ok(()) && new'.status == status
                   && new'.acknowledgedAt == (if old'.acknowledgedAt == None then Some(now) else old'.acknowledgedAt)
                   && Envelope(new') == Envelope(old')
                 else r == Err(Conflict) && after == messages
  {
  }

  /** Everything of a row that no update may touch. */
  function Envelope(row: MessageRow): MessageRow {
    row.(status := "", acknowledgedAt := None)
  }

  lemma EnvelopeExactly(a: MessageRow, b: MessageRow)
    ensures Envelope(a) == Envelope(b) <==>
            && a.id == b.id && a.paymentIntentId == b.paymentIntentId && a.senderId == b.senderId
            && a.recipientId == b.recipientId && a.senderName == b.senderName && a.recipientName == b.recipientName
            && a.payload == b.payload && a.createdAt == b.createdAt
  {
  }

  class InMemoryProtectedMessageRepository {
    var messages: Messages

    constructor ()
      ensures messages == map[]
    {
      messages := map[];
    }

    method SaveMessage(row: MessageRow)
      modifies this
      ensures messages == old(messages)[row.id := row]
    {
      messages := messages[row.id := row];
    }

    method UpdateMessageStatus(id: Uuid, status: string, now: Time) returns (r: Result<(), ApiError>)
      modifies this
      ensures messages == MessageUpdate(old(messages), id, status, now).0
      ensures r == MessageUpdate(old(messages), id, status, now).1
    {
      var allowed := AllowedSources(status);
      if allowed.None? {
        return Err(BadRequest);
      }
      if id !in messages {
        return Err(NotFound);
      }
      var row := messages[id];
      if row.status !in allowed.value {
        return Err(Conflict);
      }
      row := row.(status := status);
      if row.acknowledgedAt.None? {
        row := row.(acknowledgedAt := Some(now));
      }
      messages := messages[id := row];
      r := Ok(());
    }
  }

  // ---------------------------------------------------------------- PostgreSQL

  /** `UPDATE .. WHERE id = $2 AND status = ANY($3)` and the number of rows it changed. */
  function ConditionalUpdate(
    rows: Messages, id: Uuid, status: string, allowed: seq<string>, now: Time): (Messages, nat) {
    var hits := map k | k in rows && k == id && rows[k].status in allowed :: Advanced(rows[k], status, now);
    (rows + hits, |hits|)
  }

  class PgProtectedMessageRepository {
    var rows: Messages

    constructor ()
      ensures rows == map[]
    {
      rows := map[];
    }

    method FindMessageById(id: Uuid) returns (found: Option<MessageRow>)
      ensures found == if id in rows then Some(rows[id]) else None
    {
      found := if id in rows then Some(rows[id]) else None;
    }

    /**
      A conditional UPDATE, and a second read only to tell a missing row from a refused one.  `meanwhile` is what
      other sessions do between the two statements.
     */
    method UpdateMessageStatus(id: Uuid, status: string, now: Time, meanwhile: Messages -> Messages)
      returns (r: Result<(), ApiError>)
      modifies this
      ensures var (changed, reply) := MessageUpdate(old(rows), id, status, now);
              if reply.Ok? || AllowedSources(status).None? then rows == changed && r == reply
              else rows == meanwhile(old(rows)) && r == if id in rows then Err(Conflict) else Err(NotFound)
      ensures (id in meanwhile(old(rows)) <==> id in old(rows)) ==> r == MessageUpdate(old(rows), id, status, now).1
    {
      var allowed := AllowedSources(status);
      if allowed.None? {
        return Err(BadRequest);
      }
      ConditionalUpdateIsMessageUpdate(rows, id, status, now);
      var (changed, affected) := ConditionalUpdate(rows, id, status, allowed.value, now);
      rows := changed;
      if affected == 0 {
        rows := meanwhile(rows);
        var found := FindMessageById(id);
        if found.None? {
          return Err(NotFound);
        }
        return Err(Conflict);
      }
      r := Ok(());
    }
  }

  /**
    The conditional UPDATE changes the row the in-memory form changes, and counts one row exactly when that succeeds.
   */
  lemma ConditionalUpdateIsMessageUpdate(rows: Messages, id: Uuid, status: string, now: Time)
    requires AllowedSources(status).Some?
    ensures var (changed, affected) := ConditionalUpdate(rows, id, status, AllowedSources(status).value, now);
            && changed == MessageUpdate(rows, id, status, now).0
            && (affected == 0 <==> MessageUpdate(rows, id, status, now).1.Err?)
            && affected <= 1
  {
    var allowed := AllowedSources(status).value;
    var hits := map k | k in rows && k == id && rows[k].status in allowed :: Advanced(rows[k], status, now);
    if id in rows && rows[id].status in allowed {
      assert hits == map[id := Advanced(rows[id], status, now)];
      assert rows + hits == rows[id := Advanced(rows[id], status, now)];
    } else {
      assert hits == map[];
      assert rows + hits == rows;
    }
  }
}

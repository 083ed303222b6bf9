/**
  The two writing handlers of services/api/src/routes/protected_messages.rs, run without interruption.  `Coordination`
  interleaves their steps.
 */
module MessageRoutes {
  import opened Wrappers
  import opened PaymentIntents
  import opened PaymentStore
  import opened PaymentService
  import opened MessageStore

  datatype User = User(id: Uuid, name: string)

  function AsActor(user: User): Actor {
    Actor(user.id, Some(user.name))
  }

  /** The sender is the authenticated user, the recipient whatever user the name lookup returned. */
  datatype MessageRequest = MessageRequest(sender: User, recipient: User, link: Option<Uuid>, payload: string)

  function NewRow(m: MessageRequest, id: Uuid, now: Time): MessageRow {
    MessageRow(id, m.link, m.sender.id, m.recipient.id, m.sender.name, m.recipient.name, m.payload, "delivered", now,
               None)
  }

  /** `ack_message_handler`: only the recipient acknowledges or claims, only the sender refunds. */
  function RoleCheck(row: MessageRow, userId: Uuid, status: string): Result<(), ApiError> {
    if row.senderId != userId && row.recipientId != userId then Err(Forbidden)
    else if status == "claimed" then if userId != row.recipientId then Err(Forbidden) else Ok(())
    else if status == "refunded" then if userId != row.senderId then Err(Forbidden) else Ok(())
    else if status == "acknowledged" || status == "delivered" then
      if userId != row.recipientId then Err(Forbidden) else Ok(())
    else Err(BadRequest)
  }

  /** What sending does: refuse an unknown recipient or a foreign intent, otherwise deliver one fresh row. */
  function Send(
    store: Store, sender: User, recipient: Option<User>, link: Option<Uuid>, payload: string, id: Uuid, now: Time)
    : Result<MessageRow, ApiError>
  {
    if recipient.None? then Err(NotFound)
    else
      var checked := if link.Some? then
          ValidateLink(FindById(store, link.value), AsActor(sender), AsActor(recipient.value))
                     else Ok(());
      if checked.Err? then Err(checked.error)
      else Ok(NewRow(MessageRequest(sender, recipient.value, link, payload), id, now))
  }

  /** What acknowledging does: the role check on the row as read, then the guarded update. */
  function Acknowledge(messages: Messages, id: Uuid, userId: Uuid, status: Option<string>, now: Time)
    : (Messages, Result<string, ApiError>)
  {
    var newStatus := if status.Some? then status.value else "acknowledged";
    if id !in messages then (messages, Err(NotFound))
    else
      match RoleCheck(messages[id], userId, newStatus)
      case Err(e) => (messages, Err(e))
      case Ok(_) =>
        var (messages', r) := MessageUpdate(messages, id, newStatus, now);
        (messages', if r.Ok? then Ok(newStatus) else Err(r.error))
  }

  /**
    What sending comes to: an unknown recipient and a link the two parties may not use are refused; otherwise the row
    carries who, to whom, what and which payment, is delivered, and is not acknowledged.
   */
  lemma SendExactly(
    store: Store, sender: User, recipient: Option<User>, link: Option<Uuid>, payload: string, id: Uuid, now: Time)
    ensures var r := Send(store, sender, recipient, link, payload, id, now);
            if recipient.None? then r == Err(NotFound)
            else if link.Some? && link.value !in store then r == Err(NotFound)
            else if link.Some? && !(NamesSender(store[link.value], Actor(sender.id, Some(sender.name))) &&
                                    NamesRecipient(store[link.value],
                                                   Actor(recipient.value.id, Some(recipient.value.name)))) then
              r == Err(Forbidden)
            else if link.Some? && store[link.value].paymentType.InstantPayment? then r == Err(BadRequest)
            else
              && r.Ok?
              && r.value.id == id && r.value.paymentIntentId == link && r.value.payload == payload
              && r.value.senderId == sender.id && r.value.senderName == sender.name
              && r.value.recipientId == recipient.value.id && r.value.recipientName == recipient.value.name
              && r.value.status == "delivered" && r.value.createdAt == now && r.value.acknowledgedAt == None
  {
    if recipient.Some? && link.Some? {
      LinkAcceptedExactly(FindById(store, link.value), AsActor(sender), AsActor(recipient.value));
    }
  }

  /** The user's part in a message entitles to the report: senders refund, recipients do the rest. */
  predicate MayReport(row: MessageRow, userId: Uuid, status: string) {
    if status == "refunded" then userId == row.senderId
    else if status in {"claimed", "acknowledged", "delivered"} then userId == row.recipientId
    else userId == row.senderId || userId == row.recipientId
  }

  /**
    What acknowledging comes to: "acknowledged" if no status is given; strangers and the wrong party are refused, then
    unknown statuses, and everything else is what the guarded update makes of it.
   */
  lemma AcknowledgeExactly(messages: Messages, id: Uuid, userId: Uuid, status: Option<string>, now: Time)
    ensures var (after, r) := Acknowledge(messages, id, userId, status, now);
            var s := if status == None then "acknowledged" else status.value;
            if id !in messages then r == Err(NotFound) && after == messages
            else if !MayReport(messages[id], userId, s) then r == Err(Forbidden) && after == messages
            else if s !in {"claimed", "refunded", "acknowledged", "delivered"} then
                r == Err(BadRequest) && after == messages
            else
              var (updated, outcome) := MessageUpdate(messages, id, s, now);
              after == updated && r == if outcome.Ok? then Ok(s) else Err(outcome.error)
  {
  }

  class Handlers {
    const service: Service
    const messages: InMemoryProtectedMessageRepository

    constructor (service: Service, messages: InMemoryProtectedMessageRepository)
      ensures this.service == service && this.messages == messages
    {
      this.service := service;
      this.messages := messages;
    }

    method CreateProtectedMessage(
      sender: User, recipient: Option<User>, link: Option<Uuid>, payload: string, id: Uuid, now: Time)
      returns (r: Result<MessageRow, ApiError>)
      modifies messages
      ensures r == Send(service.repo.storage, sender, recipient, link, payload, id, now)
      ensures messages.messages == if r.Ok? then old(messages.messages)[id := r.value] else old(messages.messages)
    {
      if recipient.None? {
        return Err(NotFound);
      }
      if link.Some? {
        var checked := service.ValidateProtectedMessageLink(link.value, AsActor(sender), AsActor(recipient.value));
        if checked.Err? {
          return Err(checked.error);
        }
      }
      var row := MessageRow(id, link, sender.id, recipient.value.id, sender.name, recipient.value.name, payload,
                            "delivered", now, None);
      messages.SaveMessage(row);
      r := Ok(row);
    }

    method AckMessage(id: Uuid, userId: Uuid, status: Option<string>, now: Time) returns (r: Result<string, ApiError>)
      modifies messages
      ensures messages.messages == Acknowledge(old(messages.messages), id, userId, status, now).0
      ensures r == Acknowledge(old(messages.messages), id, userId, status, now).1
    {
      if id !in messages.messages {
        return Err(NotFound);
      }
      var row := messages.messages[id];
      if row.senderId != userId && row.recipientId != userId {
        return Err(Forbidden);
      }
      var newStatus := if status.Some? then status.value else "acknowledged";
      if newStatus == "claimed" {
        if userId != row.recipientId {
          return Err(Forbidden);
        }
      } else if newStatus == "refunded" {
        if userId != row.senderId {
          return Err(Forbidden);
        }
      } else if newStatus == "acknowledged" || newStatus == "delivered" {
        if userId != row.recipientId {
          return Err(Forbidden);
        }
      } else {
        return Err(BadRequest);
      }
      var updated := messages.UpdateMessageStatus(id, newStatus, now);
      r := if updated.Ok? then Ok(newStatus) else Err(updated.error);
    }
  }

  /** A sender can never claim and a recipient never refund, unless they are one user; nobody else changes anything. */
  lemma AcknowledgedBy(messages: Messages, id: Uuid, userId: Uuid, status: Option<string>, now: Time)
    requires Acknowledge(messages, id, userId, status, now).1.Ok?
    ensures var (after, r) := Acknowledge(messages, id, userId, status, now);
            && id in messages && after.Keys == messages.Keys
            && userId == (if r.value == "refunded" then messages[id].senderId else messages[id].recipientId)
            && after == messages[id := Advanced(messages[id], r.value, now)]
            && (messages[id].status == r.value || !IsKnown(messages[id].status) ||
                MessageRank(messages[id].status) < MessageRank(r.value))
  {
    if IsKnown(messages[id].status) {
      AllowedSourcesByRank(messages[id].status, Acknowledge(messages, id, userId, status, now).1.value);
    }
  }
}

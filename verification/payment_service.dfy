/**
  Authorisation and composition over the repository: services/api/src/services/payment_service.rs.  Each operation is
  split here into the pieces that run between two awaits, so that `Coordination` can interleave them.
 */
module PaymentService {
  import opened Wrappers
  import opened Text
  import opened PaymentStatuses
  import opened PaymentIntents
  import opened PaymentStore

  /** The authenticated caller. */
  datatype Actor = Actor(userId: Uuid, username: Option<string>)

  /** `matches_actor`, disjunct by disjunct. */
  predicate MatchesActor(actor: Actor, target: string) {
    || target == actor.userId
    || StripAt(target) == StripAt(actor.userId)
    || (actor.username.Some? &&
        var name := actor.username.value;
        || EqIgnoreCase(target, name)
        || EqIgnoreCase(StripAt(target), StripAt(name))
        || target == name
        || StripAt(target) == StripAt(name))
  }

  predicate IsIdOrHandle(actor: Actor, target: string) {
    || StripAt(target) == StripAt(actor.userId)
    || (actor.username.Some? && EqIgnoreCase(StripAt(target), StripAt(actor.username.value)))
  }

  /** Four of the six comparisons are redundant: an actor matches by id or, ignoring case, by handle, up to one `@`. */
  lemma MatchesActorByIdOrHandle(actor: Actor, target: string)
    ensures MatchesActor(actor, target) <==> IsIdOrHandle(actor, target)
  {
    if actor.username.Some? && EqIgnoreCase(target, actor.username.value) {
      var name := actor.username.value;
      assert |target| == |Lower(target)| == |Lower(name)| == |name|;
      forall i | 0 <= i < |target|
        ensures LowerChar(target[i]) == LowerChar(name[i])
      {
        assert Lower(target)[i] == Lower(name)[i];
      }
      assert target != [] ==> (target[0] == '@' <==> name[0] == '@');
    }
  }

  predicate IsSender(intent: PaymentIntent, actor: Actor) {
    intent.senderId.Some? && MatchesActor(actor, intent.senderId.value)
  }

  predicate IsRecipient(intent: PaymentIntent, actor: Actor) {
    MatchesActor(actor, intent.recipient)
  }

  /** Who may report which status. */
  predicate Authorised(intent: PaymentIntent, status: PaymentStatus, actor: Actor) {
    match status
    case Claimed => IsRecipient(intent, actor)
    case Refunded => IsSender(intent, actor)
    case _ => IsSender(intent, actor) || IsRecipient(intent, actor)
  }

  // ---------------------------------------------------------------- creation

  const MAX_SATS: nat := 21_000_000 * 100_000_000
  const MAX_I64: int := 0x7fff_ffff_ffff_ffff
  /** Whole seconds a chrono duration can hold. */
  const MAX_DURATION_SECONDS: int := MAX_I64 / 1000
  /** The first instant chrono cannot represent, the year 262143. */
  const END_OF_TIME: int := 8_210_266_876_800 * NANOS

  datatype CreateRequest = CreateRequest(
    paymentType: PaymentType,
    amount: Sats,
    recipient: string,
    senderId: Option<string>,
    description: Option<string>,
    expiresInSeconds: Option<Sats>)

  /** The requested expiry, if it is a positive number of seconds that stays representable at every step. */
  function Expiry(seconds: Sats, now: Time): Option<Time> {
    if seconds > MAX_I64 || seconds == 0 || seconds > MAX_DURATION_SECONDS then None
    else if now + seconds * NANOS >= END_OF_TIME then None
    else Some(now + seconds * NANOS)
  }

  /** The clock is read at `now`, and once more, at `later`, when the intent is constructed. */
  function NewPaymentIntent(req: CreateRequest, id: Uuid, now: Time, later: Time): Result<PaymentIntent, ApiError> {
    if req.amount > MAX_SATS then Err(Core(InvalidAmount))
    else if req.expiresInSeconds.Some? && Expiry(req.expiresInSeconds.value, now).None? then Err(BadRequest)
    else
      var expiresAt := if req.expiresInSeconds.Some? then Expiry(req.expiresInSeconds.value, now) else None;
      match NewIntent(id, req.paymentType, req.amount, req.recipient, req.senderId, req.description, expiresAt, later)
      case Err(e) => Err(Core(e))
      case Ok(intent) =>
        match intent.paymentType
        case ProtectedPayment =>
          var expiry := if expiresAt.Some? then expiresAt.value else now + 24 * 3600 * NANOS;
          Ok(intent.(expiresAt := Some(expiry), status := Created, claimReference := Some("hnbv_claim_" + Simple(id))))
        case InstantPayment =>
          Ok(intent.(status := Pending))
  }

  /** An expiry may be asked for if it lies ahead when the intent is built and before the end of the calendar. */
  predicate ExpiryFits(seconds: Sats, now: Time, later: Time) {
    && later < now + seconds * 1_000_000_000 < 8_210_266_876_800_000_000_000
    && seconds <= 9_223_372_036_854_775
  }

  /**
    Creation succeeds on exactly these requests: an amount up to all bitcoin there is, a recipient, a fitting expiry.
   */
  lemma CreationSucceedsExactly(req: CreateRequest, id: Uuid, now: Time, later: Time)
    requires 0 <= now <= later
    ensures NewPaymentIntent(req, id, now, later).Ok? <==>
            && 0 < req.amount <= 2_100_000_000_000_000
            && Trim(req.recipient) != ""
            && (req.expiresInSeconds.Some? ==> ExpiryFits(req.expiresInSeconds.value, now, later))
  {
  }

  /** The stored intent is the requested one, field by field. */
  lemma CreationFields(req: CreateRequest, id: Uuid, now: Time, later: Time)
    requires NewPaymentIntent(req, id, now, later).Ok?
    ensures var intent := NewPaymentIntent(req, id, now, later).value;
            && intent.id == id
            && intent.paymentType == req.paymentType
            && intent.amount == req.amount
            && intent.recipient == Trim(req.recipient)
            && intent.senderId == req.senderId
            && intent.description == req.description
            && intent.createdAt == intent.updatedAt == later
            && intent.status == (if req.paymentType.ProtectedPayment? then Created else Pending)
            && intent.claimReference ==
               (if req.paymentType.ProtectedPayment? then Some("hnbv_claim_" + Simple(id)) else None)
            && intent.expiresAt ==
               if req.expiresInSeconds.Some? then Some(now + req.expiresInSeconds.value * 1_000_000_000)
               else if req.paymentType.ProtectedPayment? then Some(now + 86_400 * 1_000_000_000)
               else None
  {
  }

  /** Which error a refused request gets, in the order of the checks. */
  lemma CreationErrors(req: CreateRequest, id: Uuid, now: Time, later: Time)
    requires 0 <= now <= later && NewPaymentIntent(req, id, now, later).Err?
    ensures NewPaymentIntent(req, id, now, later).error ==
            if req.amount > 2_100_000_000_000_000 then Core(InvalidAmount)
            else if req.expiresInSeconds.Some? &&
                    !(0 < req.expiresInSeconds.value <= 9_223_372_036_854_775 &&
                      now + req.expiresInSeconds.value * 1_000_000_000 < 8_210_266_876_800_000_000_000) then BadRequest
            else if Trim(req.recipient) == "" then Core(EmptyRecipient)
            else if req.amount == 0 then Core(ZeroAmount)
            else Core(ExpiryNotInFuture)
  {
  }

  // ---------------------------------------------------------------- message links

  /** A message may be linked to a protected intent of exactly this sender and this recipient. */
  function ValidateLink(found: Option<PaymentIntent>, sender: Actor, recipient: Actor): Result<(), ApiError> {
    match found
    case None => Err(NotFound)
    case Some(intent) =>
      if !IsSender(intent, sender) || !IsRecipient(intent, recipient) then Err(Forbidden)
      else if intent.paymentType != ProtectedPayment then Err(BadRequest)
      else Ok(())
  }

  predicate NamesSender(intent: PaymentIntent, actor: Actor) {
    intent.senderId.Some? && IsIdOrHandle(actor, intent.senderId.value)
  }

  predicate NamesRecipient(intent: PaymentIntent, actor: Actor) {
    IsIdOrHandle(actor, intent.recipient)
  }

  /**
    Exactly which intents a message may be linked to: protected ones that name both parties by id or handle.  Naming
    the wrong party is the graver error.
   */
  lemma LinkAcceptedExactly(found: Option<PaymentIntent>, sender: Actor, recipient: Actor)
    ensures ValidateLink(found, sender, recipient) ==
            match found
            case None => Err(NotFound)
            case Some(intent) =>
              if !NamesSender(intent, sender) || !NamesRecipient(intent, recipient) then Err(Forbidden)
              else if intent.paymentType.InstantPayment? then Err(BadRequest)
              else Ok(())
  {
    if found.Some? {
      MatchesActorByIdOrHandle(recipient, found.value.recipient);
      if found.value.senderId.Some? {
        MatchesActorByIdOrHandle(sender, found.value.senderId.value);
      }
    }
  }

  // ---------------------------------------------------------------- one uninterrupted status report

  /** `update_payment_status` when nothing runs between its read and its commit. */
  function Report(store: Store, id: Uuid, status: PaymentStatus, actor: Actor, now: Time)
    : (Store, Result<PaymentIntent, ApiError>)
  {
    match FindById(store, id)
    case None => (store, Err(NotFound))
    case Some(snapshot) =>
      if !Authorised(snapshot, status, actor) then (store, Err(Forbidden))
      else
        var (store', r) := StoreUpdate(store, id, status, now);
        match r
        case Err(e) => (store', Err(e))
        case Ok(at) => (store', Ok(snapshot.(updatedAt := at, status := status)))
  }

  /** Who is entitled to a report: the recipient to Claimed, the sender to Refunded, either to any other status. */
  predicate Entitled(intent: PaymentIntent, status: PaymentStatus, actor: Actor) {
    var (sender, recipient) := (NamesSender(intent, actor), NamesRecipient(intent, actor));
    if status == Claimed then recipient else if status == Refunded then sender else sender || recipient
  }

  /**
    Exactly which reports are accepted: those of an entitled party along an edge of the graph.  The report is then
    stored and returned, with a new timestamp unless it repeats the status; a refused one changes nothing.
   */
  lemma ReportSucceedsExactly(store: Store, id: Uuid, status: PaymentStatus, actor: Actor, now: Time)
    ensures var (after, r) := Report(store, id, status, actor, now);
            && (r == Err(NotFound) <==> id !in store)
            && (r == Err(Forbidden) <==> id in store && !Entitled(store[id], status, actor))
            && (r.Ok? <==>
                 id in store && Entitled(store[id], status, actor) && CanTransitionTo(store[id].status, status))
            && (r.Err? ==> after == store)
            && (r.Err? && id in store && Entitled(store[id], status, actor) ==>
                  r.error == Core(InvalidStateTransition(store[id].status, status)))
            && (r.Ok? ==>
                  && after == store[id := r.value]
                  && r.value.status == status && Identity(r.value) == Identity(store[id])
                  && r.value.updatedAt == if store[id].status == status then store[id].updatedAt else now)
  {
    if id in store {
      MatchesActorByIdOrHandle(actor, store[id].recipient);
      if store[id].senderId.Some? {
        MatchesActorByIdOrHandle(actor, store[id].senderId.value);
      }
      assert store[id := store[id]] == store;
    }
  }

  class Service {
    const repo: InMemoryPaymentIntentRepository

    constructor (repo: InMemoryPaymentIntentRepository)
      ensures this.repo == repo
    {
      this.repo := repo;
    }

    method CreatePaymentIntent(req: CreateRequest, id: Uuid, now: Time, later: Time)
      returns (r: Result<PaymentIntent, ApiError>)
      modifies repo
      ensures r == NewPaymentIntent(req, id, now, later)
      ensures repo.storage == if r.Ok? then old(repo.storage)[id := r.value] else old(repo.storage)
    {
      if req.amount > MAX_SATS {
        return Err(Core(InvalidAmount));
      }
      var expiresAt := None;
      if req.expiresInSeconds.Some? {
        expiresAt := Expiry(req.expiresInSeconds.value, now);
        if expiresAt.None? {
          return Err(BadRequest);
        }
      }
      var made := NewIntent(id, req.paymentType, req.amount, req.recipient, req.senderId, req.description, expiresAt,
                            later);
      if made.Err? {
        return Err(Core(made.error));
      }
      var intent := made.value;
      match intent.paymentType {
        case ProtectedPayment =>
          var expiry := if expiresAt.Some? then expiresAt.value else now + 24 * 3600 * NANOS;
          intent := intent.(expiresAt := Some(expiry));
          intent := intent.(status := Created);
          intent := intent.(claimReference := Some("hnbv_claim_" + Simple(intent.id)));
        case InstantPayment =>
          intent := intent.(status := Pending);
      }
      repo.Save(intent);
      r := Ok(intent);
    }

    method ValidateProtectedMessageLink(id: Uuid, sender: Actor, recipient: Actor) returns (r: Result<(), ApiError>)
      ensures r == ValidateLink(FindById(repo.storage, id), sender, recipient)
    {
      var found := repo.Find(id);
      r := ValidateLink(found, sender, recipient);
    }

    method UpdatePaymentStatus(id: Uuid, status: PaymentStatus, actor: Actor, now: Time)
      returns (r: Result<PaymentIntent, ApiError>)
      modifies repo
      ensures repo.storage == Report(old(repo.storage), id, status, actor, now).0
      ensures r == Report(old(repo.storage), id, status, actor, now).1
      ensures r.Ok? ==> FindById(repo.storage, id) == Some(r.value)
    {
      var found := repo.Find(id);
      if found.None? {
        return Err(NotFound);
      }
      var intent := found.value;
      if !Authorised(intent, status, actor) {
        return Err(Forbidden);
      }
      var at := repo.UpdateStatus(id, status, now);
      match at {
        case Err(e) =>
          r := Err(e);
        case Ok(updatedAt) =>
          intent := intent.(updatedAt := updatedAt);
          intent := intent.(status := status);
          r := Ok(intent);
      }
    }
  }
}

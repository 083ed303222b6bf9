/** The payment intent of crates/hanbova-core/src/payment_intent.rs: validated construction, status change, expiry. */
module PaymentIntents {
  import opened Wrappers
  import opened Text
  import opened PaymentStatuses

  /** Identifiers are kept in their canonical text form, which is how actors are compared with them. */
  type Uuid = string

  /** `DateTime<Utc>` in nanoseconds. */
  type Time = int

  /** The nanoseconds of a second. */
  const NANOS: nat := 1_000_000_000

  const TWO64: nat := 0x1_0000_0000_0000_0000

  /** The range of `u64`. */
  type Sats = n: nat | n < TWO64

  datatype PaymentType = InstantPayment | ProtectedPayment

  datatype PaymentIntent = PaymentIntent(
    id: Uuid,
    paymentType: PaymentType,
    status: PaymentStatus,
    amount: Sats,
    senderId: Option<string>,
    recipient: string,
    description: Option<string>,
    expiresAt: Option<Time>,
    claimReference: Option<string>,
    createdAt: Time,
    updatedAt: Time)

  datatype CoreError =
    | InvalidAmount
    | EmptyRecipient
    | ZeroAmount
    | ExpiryNotInFuture
    | InvalidStateTransition(from: PaymentStatus, to: PaymentStatus)
    | CannotClaim(status: PaymentStatus)

  function NewIntent(
    id: Uuid, paymentType: PaymentType, amount: Sats, recipient: string, senderId: Option<string>,
    description: Option<string>, expiresAt: Option<Time>, now: Time): Result<PaymentIntent, CoreError>
  {
    if Trim(recipient) == "" then Err(EmptyRecipient)
    else if amount == 0 then Err(ZeroAmount)
    else if expiresAt.Some? && expiresAt.value <= now then Err(ExpiryNotInFuture)
    else
      Ok(PaymentIntent(id, paymentType, Created, amount, senderId, Trim(recipient), description, expiresAt, None,
                       now, now))
  }

  function UpdateStatus(intent: PaymentIntent, next: PaymentStatus, now: Time): Result<PaymentIntent, CoreError> {
    match TransitionTo(intent.status, next)
    case Ok(s) => Ok(intent.(status := s, updatedAt := now))
    case Err(e) => Err(InvalidStateTransition(e.from, e.to))
  }

  predicate IsExpired(intent: PaymentIntent, now: Time) {
    intent.expiresAt.Some? && now >= intent.expiresAt.value
  }

  /** Everything of an intent that no status update may touch. */
  function Identity(intent: PaymentIntent): PaymentIntent {
    intent.(status := Created, updatedAt := 0)
  }

  /** `Uuid::simple()`: the canonical text without its dashes. */
  function Simple(id: Uuid): string {
    if id == "" then "" else (if id[0] == '-' then "" else [id[0]]) + Simple(id[1..])
  }

  // ---------------------------------------------------------------- what they say of an intent, field by field

  /** Two intents have the same identity exactly if they differ in status and update time at most. */
  lemma IdentityExactly(a: PaymentIntent, b: PaymentIntent)
    ensures Identity(a) == Identity(b) <==>
            && a.id == b.id && a.paymentType == b.paymentType && a.amount == b.amount && a.senderId == b.senderId
            && a.recipient == b.recipient && a.description == b.description && a.expiresAt == b.expiresAt
            && a.claimReference == b.claimReference && a.createdAt == b.createdAt
  {
  }

  /** A status update follows the graph, stamps the time even if the status repeats, and touches nothing else. */
  lemma UpdateStatusExactly(intent: PaymentIntent, next: PaymentStatus, now: Time)
    ensures match UpdateStatus(intent, next, now)
            case Ok(updated) =>
              && CanTransitionTo(intent.status, next)
              && updated.status == next && updated.updatedAt == now && Identity(updated) == Identity(intent)
            case Err(error) =>
              !CanTransitionTo(intent.status, next) && error == InvalidStateTransition(intent.status, next)
  {
  }

  /** The simple form of an identifier is its text without the dashes. */
  lemma {:induction false} SimpleExactly(a: string, b: string)
    requires '-' !in a
    ensures Simple(a) == a
    ensures Simple(a + "-" + b) == a + Simple(b)
  {
    if a == "" {
      assert ("" + "-" + b)[1..] == b;
    } else {
      assert (a + "-" + b)[1..] == a[1..] + "-" + b;
      SimpleExactly(a[1..], b);
    }
  }
}

/**
  The in-memory escrow provider of crates/hanbova-protected-payments/src/mock.rs: a timelock without a mint.  Before
  the expiry a payment can be claimed, from then on refunded.
 */
module MockEscrow {
  import opened Wrappers
  import opened Text
  import opened PaymentStatuses
  import opened PaymentIntents

  type Intents = map<Uuid, PaymentIntent>

  datatype MockRequest = MockRequest(
    amount: Sats,
    recipient: string,
    senderId: Option<string>,
    description: Option<string>,
    expiresAt: Time)

  datatype MockError =
    | Core(error: CoreError)
    | NotFound
    | PaymentExpired(at: Time)
    | PaymentNotExpired(at: Time)
    | InvalidClaimProof

  datatype Receipt = Receipt(
    id: Uuid,
    status: PaymentStatus,
    amount: Sats,
    recipient: string,
    expiresAt: Time,
    reference: string,
    token: Option<string>,
    createdAt: Time)

  type Outcome = (Intents, Result<Receipt, MockError>)

  function Create(intents: Intents, req: MockRequest, id: Uuid, now: Time): Outcome {
    match NewIntent(id, ProtectedPayment, req.amount, req.recipient, req.senderId, req.description,
                    Some(req.expiresAt), now)
    case Err(error) => (intents, Err(Core(error)))
    case Ok(made) =>
      var intent := made.(status := Claimable);
      (intents[id := intent],
       Ok(Receipt(id, Claimable, req.amount, intent.recipient, req.expiresAt, "hnbv_claim_" + Simple(id),
                  Some("cashuA_mock_" + Simple(id)), now)))
  }

  function ExpiryOr(intent: PaymentIntent, now: Time): Time {
    if intent.expiresAt.Some? then intent.expiresAt.value else now
  }

  function SettledReceipt(intent: PaymentIntent, now: Time, prefix: string): Receipt {
    Receipt(intent.id, intent.status, intent.amount, intent.recipient, ExpiryOr(intent, now),
            prefix + Simple(intent.id), None, intent.createdAt)
  }

  function Claim(intents: Intents, id: Uuid, proof: string, now: Time): Outcome {
    if id !in intents then (intents, Err(NotFound))
    else
      var intent := intents[id];
      if IsExpired(intent, now) then
        match UpdateStatus(intent, RefundAvailable, now)
        case Err(error) => (intents, Err(Core(error)))
        case Ok(late) => (intents[id := late], Err(PaymentExpired(ExpiryOr(intent, now))))
      else if !intent.status.Claimable? && !intent.status.Protected? then
          (intents, Err(Core(CannotClaim(intent.status))))
      else if Trim(proof) == "" then (intents, Err(InvalidClaimProof))
      else
        match UpdateStatus(intent, Claimed, now)
        case Err(error) => (intents, Err(Core(error)))
        case Ok(claimed) => (intents[id := claimed], Ok(SettledReceipt(claimed, now, "claimed_")))
  }

  function Refund(intents: Intents, id: Uuid, now: Time): Outcome {
    if id !in intents then (intents, Err(NotFound))
    else
      var intent := intents[id];
      if !IsExpired(intent, now) then (intents, Err(PaymentNotExpired(ExpiryOr(intent, now))))
      else
        var made := if !intent.status.RefundAvailable? && !intent.status.Expired?
                    then UpdateStatus(intent, RefundAvailable, now) else Ok(intent);
        match made
        case Err(error) => (intents, Err(Core(error)))
        case Ok(refundable) =>
          match UpdateStatus(refundable, Refunded, now)
          case Err(error) => (intents[id := refundable], Err(Core(error)))
          case Ok(refunded) => (intents[id := refunded], Ok(SettledReceipt(refunded, now, "refunded_")))
  }

  class MockProtectedPaymentProvider {
    var intents: Intents

    constructor ()
      ensures intents == map[]
    {
      intents := map[];
    }

    method CreateProtectedPayment(req: MockRequest, id: Uuid, now: Time) returns (r: Result<Receipt, MockError>)
      modifies this
      ensures (intents, r) == Create(old(intents), req, id, now)
    {
      var made := NewIntent(id, ProtectedPayment, req.amount, req.recipient, req.senderId, req.description,
                            Some(req.expiresAt), now);
      if made.Err? {
        return Err(Core(made.error));
      }
      var updated := UpdateStatus(made.value, Protected, now);
      updated := UpdateStatus(updated.value, Claimable, now);
      var intent := updated.value;
      r := Ok(Receipt(id, intent.status, intent.amount, intent.recipient, req.expiresAt, "hnbv_claim_" + Simple(id),
                      Some("cashuA_mock_" + Simple(id)), intent.createdAt));
      intents := intents[id := intent];
    }

    method ClaimPayment(id: Uuid, proof: string, now: Time) returns (r: Result<Receipt, MockError>)
      modifies this
      ensures (intents, r) == Claim(old(intents), id, proof, now)
    {
      if id !in intents {
        return Err(NotFound);
      }
      var intent := intents[id];
      if IsExpired(intent, now) {
        var late := UpdateStatus(intent, RefundAvailable, now);
        if late.Err? {
          return Err(Core(late.error));
        }
        intents := intents[id := late.value];
        return Err(PaymentExpired(ExpiryOr(intent, now)));
      }
      if intent.status != Claimable && intent.status != Protected {
        return Err(Core(CannotClaim(intent.status)));
      }
      if Trim(proof) == "" {
        return Err(InvalidClaimProof);
      }
      var claimed := UpdateStatus(intent, Claimed, now);
      intents := intents[id := claimed.value];
      r := Ok(SettledReceipt(claimed.value, now, "claimed_"));
    }

    method RefundPayment(id: Uuid, now: Time) returns (r: Result<Receipt, MockError>)
      modifies this
      ensures (intents, r) == Refund(old(intents), id, now)
    {
      if id !in intents {
        return Err(NotFound);
      }
      var intent := intents[id];
      if !IsExpired(intent, now) {
        return Err(PaymentNotExpired(ExpiryOr(intent, now)));
      }
      if intent.status != RefundAvailable && intent.status != Expired {
        var refundable := UpdateStatus(intent, RefundAvailable, now);
        if refundable.Err? {
          return Err(Core(refundable.error));
        }
        intent := refundable.value;
        intents := intents[id := intent];
      }
      var refunded := UpdateStatus(intent, Refunded, now);
      if refunded.Err? {
        return Err(Core(refunded.error));
      }
      intents := intents[id := refunded.value];
      assert intents == old(intents)[id := refunded.value];
      r := Ok(SettledReceipt(refunded.value, now, "refunded_"));
    }
  }

  // ---------------------------------------------------------------- what one call leaves behind

  /**
    A created payment is the requested one, claimable until exactly the requested instant; a refused one is not
    stored.
   */
  lemma CreationExactly(intents: Intents, req: MockRequest, id: Uuid, now: Time)
    ensures var (after, r) := Create(intents, req, id, now);
            var reference := "hnbv_claim_" + Simple(id);
            if Trim(req.recipient) == "" then r == Err(Core(EmptyRecipient)) && after == intents
            else if req.amount == 0 then r == Err(Core(ZeroAmount)) && after == intents
            else if req.expiresAt <= now then r == Err(Core(ExpiryNotInFuture)) && after == intents
            else
              && after ==
                 intents[id := PaymentIntent(id, ProtectedPayment, Claimable, req.amount, req.senderId,
                                             Trim(req.recipient), req.description, Some(req.expiresAt), None, now, now)]
              && r == Ok(Receipt(id, Claimable, req.amount, Trim(req.recipient), req.expiresAt, reference,
                                 Some("cashuA_mock_" + Simple(id)), now))
  {
  }

  /** The expiry counts: from that instant on a payment is expired, before it is not. */
  predicate ExpiredBy(intents: Intents, id: Uuid, now: Time)
    requires id in intents
  {
    match intents[id].expiresAt
    case Some(expiry) => expiry <= now
    case None => false
  }

  /** A call that pays out changes status and update time of that payment, and its receipt says so. */
  lemma PaysOutExactly(intents: Intents, id: Uuid, proof: string, now: Time)
    requires id in intents && intents[id].id == id && intents[id].expiresAt.Some?
    ensures var intent := intents[id];
            var (claim, refund) := (Claim(intents, id, proof, now), Refund(intents, id, now));
            var receipt := Receipt(id, Claimed, intent.amount, intent.recipient, intent.expiresAt.value,
                                   "claimed_" + Simple(id), None, intent.createdAt);
            && (claim.1.Ok? ==>
                  claim == (intents[id := intent.(status := Claimed, updatedAt := now)], Ok(receipt)))
            && (refund.1.Ok? ==>
                  refund == (intents[id := intent.(status := Refunded, updatedAt := now)],
                             Ok(receipt.(status := Refunded, reference := "refunded_" + Simple(id)))))
  {
    var refund := Refund(intents, id, now);
    if refund.1.Ok? {
      assert refund.0 == intents[id := intents[id].(status := Refunded, updatedAt := now)];
    }
  }

  // ---------------------------------------------------------------- runs

  /** A successful claim or refund and its instant. */
  datatype Payout = Payout(id: Uuid, at: Time)

  datatype System = System(now: Time, intents: Intents, claims: seq<Payout>, refunds: seq<Payout>)

  datatype Action =
    | Tick(time: Time)
    | NewPayment(req: MockRequest, id: Uuid)
    | TryClaim(id: Uuid, proof: string)
    | TryRefund(id: Uuid)

  function WithPayout(payouts: seq<Payout>, id: Uuid, now: Time, outcome: Outcome): seq<Payout> {
    if outcome.1.Ok? then payouts + [Payout(id, now)] else payouts
  }

  function Step(s: System, a: Action): System {
    match a
    case Tick(time) => if s.now <= time then s.(now := time) else s
    case NewPayment(req, id) => if id in s.intents then s else s.(intents := Create(s.intents, req, id, s.now).0)
    case TryClaim(id, proof) =>
      var outcome := Claim(s.intents, id, proof, s.now);
      s.(intents := outcome.0, claims := WithPayout(s.claims, id, s.now, outcome))
    case TryRefund(id) =>
      var outcome := Refund(s.intents, id, s.now);
      s.(intents := outcome.0, refunds := WithPayout(s.refunds, id, s.now, outcome))
  }

  function After(start: Time, run: seq<Action>): System {
    if run == [] then System(start, map[], [], []) else Step(After(start, run[..|run| - 1]), run[|run| - 1])
  }

  predicate Listed(payouts: seq<Payout>, id: Uuid) {
    exists i | 0 <= i < |payouts| :: payouts[i].id == id
  }

  /**
    Status and histories of one payment agree, and only an expired payment ever leaves Claimable other than by a
    claim.
   */
  ghost predicate PaymentOk(s: System, id: Uuid) {
    if id !in s.intents then !Listed(s.claims, id) && !Listed(s.refunds, id)
    else
      var intent := s.intents[id];
      && intent.expiresAt.Some?
      && (intent.status.Claimable? || intent.status.RefundAvailable? || intent.status.Claimed?
         || intent.status.Refunded?)
      && (intent.status.RefundAvailable? || intent.status.Refunded? ==> IsExpired(intent, s.now))
      && (Listed(s.claims, id) <==> intent.status.Claimed?)
      && (Listed(s.refunds, id) <==> intent.status.Refunded?)
  }

  /** No two payouts of the list are for the same payment, and each fell on its side of the expiry. */
  ghost predicate PayoutsOk(intents: Intents, payouts: seq<Payout>, late: bool) {
    && (forall i, j | 0 <= i < j < |payouts| :: payouts[i].id != payouts[j].id)
    && (forall i | 0 <= i < |payouts| ::
         payouts[i].id in intents && IsExpired(intents[payouts[i].id], payouts[i].at) == late)
  }

  ghost predicate Inv(s: System) {
    && (forall id :: PaymentOk(s, id))
    && PayoutsOk(s.intents, s.claims, false)
    && PayoutsOk(s.intents, s.refunds, true)
  }

  lemma ListedAfter(payouts: seq<Payout>, x: Payout, id: Uuid)
    ensures Listed(payouts + [x], id) <==> Listed(payouts, id) || x.id == id
  {
    assert forall i | 0 <= i < |payouts| :: (payouts + [x])[i] == payouts[i];
    assert (payouts + [x])[|payouts|] == x;
  }

  lemma StepKeepsPayment(s: System, a: Action, id: Uuid)
    requires PaymentOk(s, id)
    ensures PaymentOk(Step(s, a), id)
    ensures id in s.intents ==> id in Step(s, a).intents && Step(s, a).intents[id].expiresAt == s.intents[id].expiresAt
  {
    if a.TryClaim? {
      ListedAfter(s.claims, Payout(a.id, s.now), id);
    }
    if a.TryRefund? {
      ListedAfter(s.refunds, Payout(a.id, s.now), id);
    }
  }

  lemma StepKeepsPayouts(s: System, a: Action)
    requires Inv(s)
    ensures PayoutsOk(Step(s, a).intents, Step(s, a).claims, false)
            && PayoutsOk(Step(s, a).intents, Step(s, a).refunds, true)
  {
    forall id
      ensures id in s.intents ==>
                id in Step(s, a).intents && Step(s, a).intents[id].expiresAt == s.intents[id].expiresAt
    {
      StepKeepsPayment(s, a, id);
    }
    if a.TryClaim? || a.TryRefund? {
      assert PaymentOk(s, a.id);
    }
  }

  lemma {:induction false} EveryRunKeepsInv(start: Time, run: seq<Action>)
    ensures Inv(After(start, run))
  {
    if run != [] {
      var s := After(start, run[..|run| - 1]);
      EveryRunKeepsInv(start, run[..|run| - 1]);
      StepKeepsPayouts(s, run[|run| - 1]);
      forall id
        ensures PaymentOk(After(start, run), id)
      {
        StepKeepsPayment(s, run[|run| - 1], id);
      }
    }
  }

  // ---------------------------------------------------------------- the timelock, over whole runs

  lemma {:induction false} ClaimedBeforeExpiryRefundedAfter(start: Time, run: seq<Action>)
    ensures var s := After(start, run);
            && (forall i | 0 <= i < |s.claims| ::
                  s.claims[i].id in s.intents && !ExpiredBy(s.intents, s.claims[i].id, s.claims[i].at))
            && (forall i | 0 <= i < |s.refunds| ::
                  s.refunds[i].id in s.intents && ExpiredBy(s.intents, s.refunds[i].id, s.refunds[i].at))
  {
    EveryRunKeepsInv(start, run);
  }

  lemma {:induction false} PaidOutAtMostOnce(start: Time, run: seq<Action>)
    ensures var s := After(start, run);
            && (forall i, j | 0 <= i < |s.claims| && 0 <= j < |s.refunds| :: s.claims[i].id != s.refunds[j].id)
            && (forall i, j | 0 <= i < j < |s.claims| :: s.claims[i].id != s.claims[j].id)
            && (forall i, j | 0 <= i < j < |s.refunds| :: s.refunds[i].id != s.refunds[j].id)
  {
    var s := After(start, run);
    EveryRunKeepsInv(start, run);
    forall i, j | 0 <= i < |s.claims| && 0 <= j < |s.refunds|
      ensures s.claims[i].id != s.refunds[j].id
    {
      assert PaymentOk(s, s.claims[i].id);
    }
  }

  /**
    From the expiry on, a refund succeeds exactly for what was neither claimed nor refunded, failed late claims or
    not.
   */
  lemma {:induction false} RefundSucceedsExactly(start: Time, run: seq<Action>, id: Uuid)
    ensures var s := After(start, run);
            Refund(s.intents, id, s.now).1.Ok? <==>
              id in s.intents && ExpiredBy(s.intents, id, s.now) && !Listed(s.claims, id) && !Listed(s.refunds, id)
  {
    EveryRunKeepsInv(start, run);
    assert PaymentOk(After(start, run), id);
  }

  /** A late claim of an unpaid payment is refused but opens its refund. */
  lemma {:induction false} ClaimSucceedsExactly(start: Time, run: seq<Action>, id: Uuid, proof: string)
    ensures var s := After(start, run);
            var (after, reply) := Claim(s.intents, id, proof, s.now);
            && (reply.Ok? <==>
                  id in s.intents && !ExpiredBy(s.intents, id, s.now) && !Listed(s.claims, id) && Trim(proof) != "")
            && (reply.Err? && reply.error.PaymentExpired? <==>
                  id in s.intents && ExpiredBy(s.intents, id, s.now) && !Listed(s.claims, id) && !Listed(s.refunds, id))
            && (reply.Err? && reply.error.PaymentExpired? ==> id in after && after[id].status.RefundAvailable?)
  {
    EveryRunKeepsInv(start, run);
    assert PaymentOk(After(start, run), id);
  }

  /** Why a claim or refund was refused. */
  lemma {:induction false} RefusalsExactly(start: Time, run: seq<Action>, id: Uuid, proof: string)
    ensures id in After(start, run).intents ==> After(start, run).intents[id].expiresAt.Some?
    ensures var s := After(start, run);
            var claim := Claim(s.intents, id, proof, s.now).1;
            claim.Err? ==>
              claim.error ==
              if id !in s.intents then NotFound
              else
                var intent := s.intents[id];
                if ExpiredBy(s.intents, id, s.now) then
                  if Listed(s.claims, id) || Listed(s.refunds, id)
                  then Core(InvalidStateTransition(intent.status, RefundAvailable))
                  else PaymentExpired(intent.expiresAt.value)
                else if Listed(s.claims, id) then Core(CannotClaim(Claimed))
                else InvalidClaimProof
    ensures var s := After(start, run);
            var refund := Refund(s.intents, id, s.now).1;
            refund.Err? ==>
              refund.error ==
              if id !in s.intents then NotFound
              else
                var intent := s.intents[id];
                if ExpiredBy(s.intents, id, s.now)
                then Core(InvalidStateTransition(intent.status, RefundAvailable))
                else PaymentNotExpired(intent.expiresAt.value)
  {
    EveryRunKeepsInv(start, run);
    assert PaymentOk(After(start, run), id);
  }
}

/**
  The Cashu escrow provider of crates/hanbova-protected-payments/src/cashu.rs over an abstract mint.

  The mint keeps one spending condition per token (Cashu NUT-11, Pay-to-Pubkey) and spends each token once.  Requests
  to it may get lost on the way there or on the way back.
 */
module CashuEscrow {
  import opened Wrappers
  import opened Text
  import opened PaymentStatuses
  import opened PaymentIntents
  import opened Sums

  // ---------------------------------------------------------------- the mint

  /** A key pair; whoever presents it can sign for it. */
  type Key = nat

  type TokenId = nat

  /** A strict mint opens the timelock only once the second of the locktime is over; either convention is allowed. */
  datatype Lock = Lock(recipient: Key, refund: Option<Key>, locktime: int, strict: bool, amount: Sats)

  datatype MintToken = MintToken(lock: Lock, spent: bool)

  type Mint = map<TokenId, MintToken>

  predicate IsOpen(lock: Lock, unixNow: int) {
    if lock.strict then unixNow > lock.locktime else unixNow >= lock.locktime
  }

  /** The recipient's key always signs; once the timelock is open the refund key does, or anybody if there is none. */
  predicate MaySpend(lock: Lock, key: Key, unixNow: int) {
    key == lock.recipient || (IsOpen(lock, unixNow) && (lock.refund.None? || lock.refund.value == key))
  }

  datatype Network = Delivered | RequestLost | ReplyLost

  datatype MintReply = Received(amount: Sats) | AlreadySpent | Refused

  function MintReceive(mint: Mint, token: TokenId, key: Key, unixNow: int): (Mint, MintReply) {
    if token !in mint then (mint, Refused)
    else if mint[token].spent then (mint, AlreadySpent)
    else if !MaySpend(mint[token].lock, key, unixNow) then (mint, Refused)
    else (mint[token := mint[token].(spent := true)], Received(mint[token].lock.amount))
  }

  /** `wallet.receive`: what happened at the mint, and what the wallet learns of it. */
  function Receive(mint: Mint, token: TokenId, key: Key, unixNow: int, network: Network): (Mint, MintReply) {
    match network
    case Delivered => MintReceive(mint, token, key, unixNow)
    case RequestLost => (mint, Refused)
    case ReplyLost => (MintReceive(mint, token, key, unixNow).0, Refused)
  }

  // ---------------------------------------------------------------- the provider

  datatype TrackedPayment = TrackedPayment(intent: PaymentIntent, token: TokenId, locktime: Time)

  type Tracked = map<Uuid, TrackedPayment>

  datatype Escrow = Escrow(tracked: Tracked, mint: Mint)

  /** A key in hexadecimal, or text that is none. */
  type HexKey = Option<Key>

  datatype Conditions = Conditions(recipientKey: HexKey, refundKey: Option<HexKey>, locktime: Time)

  datatype CreateRequest = CreateRequest(
    amount: Sats,
    recipient: string,
    senderId: Option<string>,
    description: Option<string>,
    conditions: Option<Conditions>)

  datatype EscrowError =
    | MintUnreachable
    | Nut11NotSupported
    | LockingCondition
    | InvalidPublicKey
    | Cdk
    | Core(error: CoreError)
    | NotFound
    | InvalidClaimProof
    | PaymentNotExpired(locktime: Time)
    | TokenAlreadySpent

  datatype Receipt = Receipt(
    id: Uuid,
    status: PaymentStatus,
    amount: Sats,
    recipient: string,
    expiresAt: Time,
    claimReference: string,
    token: Option<TokenId>,
    createdAt: Time)

  /** `timestamp() as u64`: whole seconds, rounded down; a time before 1970 wraps to the far future. */
  function UnixTime(t: Time): int {
    (t / NANOS) % TWO64
  }

  /** The second that contains the time, counted from 1970; before 1970 two to the 64 is added. */
  lemma UnixTimeExactly(t: Time)
    requires -9_223_372_036_854_775_808 * 1_000_000_000 <= t < 9_223_372_036_854_775_808 * 1_000_000_000
    ensures var second := UnixTime(t) - if t < 0 then 18_446_744_073_709_551_616 else 0;
            second * 1_000_000_000 <= t < (second + 1) * 1_000_000_000
  {
    assert -9_223_372_036_854_775_808 <= t / NANOS < 9_223_372_036_854_775_808;
  }

  /** What the mint says of itself: nothing, or whether it knows Pay-to-Pubkey. */
  datatype MintInfo = Unreachable | NoP2pk | SupportsP2pk

  /** What the environment decides during one creation: the mint's capabilities, the wallet's funds and the clock. */
  datatype Circumstances = Circumstances(mintInfo: MintInfo, strict: bool, funded: bool, checkedAt: Time, builtAt: Time)

  /** The errors that end a creation before any proof is locked. */
  function Precheck(req: CreateRequest, env: Circumstances): Option<EscrowError> {
    if env.mintInfo.Unreachable? then Some(MintUnreachable)
    else if env.mintInfo.NoP2pk? then Some(Nut11NotSupported)
    else if req.conditions.None? then Some(LockingCondition)
    else
      var c := req.conditions.value;
      if c.recipientKey.None? then Some(InvalidPublicKey)
      else if c.refundKey.Some? && c.refundKey.value.None? then Some(InvalidPublicKey)
      else if UnixTime(c.locktime) <= UnixTime(env.checkedAt) then Some(LockingCondition)
      else if !env.funded then Some(Cdk)
      else None
  }

  function LockOf(req: CreateRequest, strict: bool): Lock
    requires req.conditions.Some? && req.conditions.value.recipientKey.Some?
  {
    var c := req.conditions.value;
    var refund := if c.refundKey.Some? then c.refundKey.value else None;
    Lock(c.recipientKey.value, refund, UnixTime(c.locktime), strict, req.amount)
  }

  function BuildIntent(req: CreateRequest, id: Uuid, now: Time): Result<PaymentIntent, CoreError>
    requires req.conditions.Some?
  {
    NewIntent(id, ProtectedPayment, req.amount, req.recipient, req.senderId, req.description,
              Some(req.conditions.value.locktime), now)
  }

  function LockProofs(mint: Mint, req: CreateRequest, token: TokenId, strict: bool): Mint
    requires req.conditions.Some? && req.conditions.value.recipientKey.Some?
  {
    mint[token := MintToken(LockOf(req, strict), false)]
  }

  /** What follows once the proofs are locked: the intent is built, which may be refused, and tracked. */
  function Track(
    e: Escrow, req: CreateRequest, id: Uuid, token: TokenId, now: Time): (Escrow, Result<Receipt, EscrowError>)
    requires req.conditions.Some?
  {
    match BuildIntent(req, id, now)
    case Err(error) => (e, Err(Core(error)))
    case Ok(made) =>
      var reference := "hnbv_claim_" + Simple(id);
      var intent := made.(status := Claimable, claimReference := Some(reference));
      var locktime := req.conditions.value.locktime;
      (e.(tracked := e.tracked[id := TrackedPayment(intent, token, locktime)]),
       Ok(Receipt(id, Claimable, req.amount, intent.recipient, locktime, reference, Some(token), intent.createdAt)))
  }

  function Create(e: Escrow, req: CreateRequest, id: Uuid, token: TokenId, env: Circumstances)
    : (Escrow, Result<Receipt, EscrowError>)
  {
    match Precheck(req, env)
    case Some(error) => (e, Err(error))
    case None => Track(e.(mint := LockProofs(e.mint, req, token, env.strict)), req, id, token, env.builtAt)
  }

  function SettledReceipt(p: TrackedPayment, amount: Sats, prefix: string): Receipt {
    Receipt(p.intent.id, p.intent.status, amount, p.intent.recipient, p.locktime, prefix + Simple(p.intent.id), None,
            p.intent.createdAt)
  }

  /** `update_status(..).ok()`: a refused transition is ignored. */
  function Relabelled(p: TrackedPayment, status: PaymentStatus, now: Time): TrackedPayment {
    match UpdateStatus(p.intent, status, now)
    case Ok(intent) => p.(intent := intent)
    case Err(_) => p
  }

  function Claim(
    e: Escrow, id: Uuid, proof: HexKey, now: Time, network: Network): (Escrow, Result<Receipt, EscrowError>) {
    if id !in e.tracked then (e, Err(NotFound))
    else if proof.None? then (e, Err(InvalidClaimProof))
    else
      var p := e.tracked[id];
      var (mint, reply) := Receive(e.mint, p.token, proof.value, now / NANOS, network);
      match reply
      case Received(amount) =>
        (match UpdateStatus(p.intent, Claimed, now)
         case Err(error) => (e.(mint := mint), Err(Core(error)))
         case Ok(intent) =>
           var q := p.(intent := intent);
           (Escrow(e.tracked[id := q], mint), Ok(SettledReceipt(q, amount, "claimed_"))))
      case AlreadySpent =>
        (Escrow(e.tracked[id := Relabelled(p, Refunded, now)], mint), Err(TokenAlreadySpent))
      case Refused => (e.(mint := mint), Err(Cdk))
  }

  function Refund(
    e: Escrow, id: Uuid, proof: HexKey, now: Time, network: Network): (Escrow, Result<Receipt, EscrowError>) {
    if id !in e.tracked then (e, Err(NotFound))
    else if now < e.tracked[id].locktime then (e, Err(PaymentNotExpired(e.tracked[id].locktime)))
    else if proof.None? then (e, Err(InvalidClaimProof))
    else
      var p := e.tracked[id];
      var (mint, reply) := Receive(e.mint, p.token, proof.value, now / NANOS, network);
      match reply
      case Received(amount) =>
        var ready := if p.intent.status != RefundAvailable then Relabelled(p, RefundAvailable, now) else p;
        (match UpdateStatus(ready.intent, Refunded, now)
         case Err(error) => (Escrow(e.tracked[id := ready], mint), Err(Core(error)))
         case Ok(intent) =>
           var q := ready.(intent := intent);
           (Escrow(e.tracked[id := q], mint), Ok(SettledReceipt(q, amount, "refunded_"))))
      case AlreadySpent =>
        (Escrow(e.tracked[id := Relabelled(p, Claimed, now)], mint), Err(TokenAlreadySpent))
      case Refused => (e.(mint := mint), Err(Cdk))
  }

  // ---------------------------------------------------------------- the locked balance

  function Weight(p: TrackedPayment): nat {
    if IsActive(p.intent.status) then p.intent.amount else 0
  }

  /** A payment counts in full until its status is terminal. */
  lemma WeightExactly(p: TrackedPayment)
    ensures Weight(p) == if p.intent.status in {Claimed, Refunded, Failed} then 0 else p.intent.amount
  {
  }

  /** The sats of the active payments. */
  ghost function Outgoing(tracked: Tracked): nat {
    Total(Weights(tracked))
  }

  ghost function Weights(tracked: Tracked): map<Uuid, nat> {
    map id | id in tracked :: Weight(tracked[id])
  }

  /** The balance after one entry is set. */
  lemma OutgoingAfterUpdate(tracked: Tracked, id: Uuid, p: TrackedPayment)
    ensures Outgoing(tracked[id := p]) ==
            Outgoing(tracked) + Weight(p) - (if id in tracked then Weight(tracked[id]) else 0)
  {
    assert Weights(tracked[id := p]) == Weights(tracked)[id := Weight(p)];
    TotalAfterUpdate(Weights(tracked), id, Weight(p));
  }

  class Wallet {
    var mint: Mint

    constructor (mint: Mint)
      ensures this.mint == mint
    {
      this.mint := mint;
    }

    method Confirm(token: TokenId, lock: Lock)
      modifies this
      ensures mint == old(mint)[token := MintToken(lock, false)]
    {
      mint := mint[token := MintToken(lock, false)];
    }

    method ReceiveToken(token: TokenId, key: Key, unixNow: int, network: Network) returns (reply: MintReply)
      modifies this
      ensures mint == Receive(old(mint), token, key, unixNow, network).0
      ensures reply == Receive(old(mint), token, key, unixNow, network).1
    {
      var (after, answer) := Receive(mint, token, key, unixNow, network);
      mint := after;
      reply := answer;
    }
  }

  class CashuProtectedPaymentProvider {
    const wallet: Wallet
    var intents: Tracked

    constructor (wallet: Wallet)
      ensures this.wallet == wallet && intents == map[]
    {
      this.wallet := wallet;
      intents := map[];
    }

    function State(): Escrow
      reads this, wallet
    {
      Escrow(intents, wallet.mint)
    }

    method CreateProtectedPayment(req: CreateRequest, id: Uuid, token: TokenId, env: Circumstances)
      returns (r: Result<Receipt, EscrowError>)
      modifies this, wallet
      ensures State() == Create(old(State()), req, id, token, env).0
      ensures r == Create(old(State()), req, id, token, env).1
    {
      var refused := Precheck(req, env);
      if refused.Some? {
        return Err(refused.value);
      }
      wallet.Confirm(token, LockOf(req, env.strict));
      var made := BuildIntent(req, id, env.builtAt);
      if made.Err? {
        return Err(Core(made.error));
      }
      var intent := made.value;
      var protectedIntent := UpdateStatus(intent, Protected, env.builtAt);
      intent := protectedIntent.value;
      var claimable := UpdateStatus(intent, Claimable, env.builtAt);
      intent := claimable.value.(claimReference := Some("hnbv_claim_" + Simple(id)));
      var locktime := req.conditions.value.locktime;
      intents := intents[id := TrackedPayment(intent, token, locktime)];
      r := Ok(Receipt(id, intent.status, intent.amount, intent.recipient, locktime, "hnbv_claim_" + Simple(id),
                      Some(token), intent.createdAt));
    }

    method ClaimPayment(id: Uuid, proof: HexKey, now: Time, network: Network) returns (r: Result<Receipt, EscrowError>)
      modifies this, wallet
      ensures State() == Claim(old(State()), id, proof, now, network).0
      ensures r == Claim(old(State()), id, proof, now, network).1
    {
      if id !in intents {
        return Err(NotFound);
      }
      var tracked := intents[id];
      if proof.None? {
        return Err(InvalidClaimProof);
      }
      var reply := wallet.ReceiveToken(tracked.token, proof.value, now / NANOS, network);
      match reply {
        case Received(amount) =>
          var updated := UpdateStatus(tracked.intent, Claimed, now);
          if updated.Err? {
            return Err(Core(updated.error));
          }
          tracked := tracked.(intent := updated.value);
          intents := intents[id := tracked];
          r := Ok(SettledReceipt(tracked, amount, "claimed_"));
        case AlreadySpent =>
          intents := intents[id := Relabelled(tracked, Refunded, now)];
          r := Err(TokenAlreadySpent);
        case Refused =>
          r := Err(Cdk);
      }
    }

    method RefundPayment(id: Uuid, proof: HexKey, now: Time, network: Network) returns (r: Result<Receipt, EscrowError>)
      modifies this, wallet
      ensures State() == Refund(old(State()), id, proof, now, network).0
      ensures r == Refund(old(State()), id, proof, now, network).1
    {
      if id !in intents {
        return Err(NotFound);
      }
      var tracked := intents[id];
      if now < tracked.locktime {
        return Err(PaymentNotExpired(tracked.locktime));
      }
      if proof.None? {
        return Err(InvalidClaimProof);
      }
      var reply := wallet.ReceiveToken(tracked.token, proof.value, now / NANOS, network);
      match reply {
        case Received(amount) =>
          if tracked.intent.status != RefundAvailable {
            tracked := Relabelled(tracked, RefundAvailable, now);
            intents := intents[id := tracked];
          }
          var updated := UpdateStatus(tracked.intent, Refunded, now);
          if updated.Err? {
            return Err(Core(updated.error));
          }
          tracked := tracked.(intent := updated.value);
          intents := intents[id := tracked];
          r := Ok(SettledReceipt(tracked, amount, "refunded_"));
        case AlreadySpent =>
          intents := intents[id := Relabelled(tracked, Claimed, now)];
          r := Err(TokenAlreadySpent);
        case Refused =>
          r := Err(Cdk);
      }
    }

    /** `protected_outgoing` of the wallet balance, summed in whatever order the map yields. */
    method ProtectedOutgoing() returns (sats: nat)
      ensures sats == Outgoing(intents)
    {
      sats := 0;
      var remaining := intents;
      while remaining.Keys != {}
        invariant remaining.Keys <= intents.Keys && forall id | id in remaining :: remaining[id] == intents[id]
        invariant sats + Outgoing(remaining) == Outgoing(intents)
        decreases remaining.Keys
      {
        var id :| id in remaining.Keys;
        var tracked := remaining[id];
        TotalSplits(Weights(remaining), id);
        assert Weights(remaining) - {id} == Weights(remaining - {id});
        if IsActive(tracked.intent.status) {
          sats := sats + tracked.intent.amount;
        }
        remaining := remaining - {id};
      }
    }
  }
}

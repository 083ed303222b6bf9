/**
  Whole runs of the Cashu escrow.  A creation locks its proofs in one step and tracks the payment in a later one;
  claims and refunds hold the provider's write lock throughout and are one step each; whoever holds a token and a key
  may spend it at the mint behind the provider's back.  Payment and token identifiers are fresh.
 */
module CashuRuns {
  import opened Wrappers
  import opened Text
  import opened PaymentStatuses
  import opened PaymentIntents
  import opened Sums
  import opened CashuEscrow

  /** A payment whose tracked status became terminal. */
  datatype Settlement = Settlement(id: Uuid, amount: Sats)

  /** How a token came to be spent: by a claim, by a refund, or at the mint without the provider. */
  datatype Via = ByClaim(network: Network) | ByRefund(network: Network) | Elsewhere

  /** Who signed for a token, how, and in which second. */
  datatype Spend = Spend(key: Key, via: Via, at: int)

  type Reply = Result<Receipt, EscrowError>

  /**
    The fields from `locks` on are histories: amounts locked and orphaned, settlements, the receipts of claims and
    refunds, the replies of all operations, and who spent which token.  No step reads them.
   */
  datatype System = System(
    now: nat,
    escrow: Escrow,
    pending: map<TokenId, CreateRequest>,
    locks: seq<Sats>,
    orphans: seq<Sats>,
    settlements: seq<Settlement>,
    receipts: seq<Receipt>,
    replies: seq<Reply>,
    spends: map<TokenId, Spend>)

  const Initial: System := System(0, Escrow(map[], map[]), map[], [], [], [], [], [], map[])

  datatype Action =
    | Tick(time: nat)
    | LockFunds(req: CreateRequest, token: TokenId, mintInfo: MintInfo, strict: bool, funded: bool)
    | TrackPayment(token: TokenId, id: Uuid)
    | ClaimPayment(id: Uuid, proof: HexKey, network: Network)
    | RefundPayment(id: Uuid, proof: HexKey, network: Network)
    | SpendElsewhere(token: TokenId, key: Key)

  predicate WellFormed(req: CreateRequest) {
    req.conditions.Some? && req.conditions.value.recipientKey.Some?
  }

  function AfterLock(s: System, req: CreateRequest, token: TokenId, strict: bool): System
    requires WellFormed(req)
  {
    s.(escrow := s.escrow.(mint := LockProofs(s.escrow.mint, req, token, strict)),
       pending := s.pending[token := req],
       locks := s.locks + [req.amount])
  }

  function AfterTrack(s: System, token: TokenId, id: Uuid): System
    requires token in s.pending && WellFormed(s.pending[token])
  {
    var req := s.pending[token];
    var (escrow, reply) := Track(s.escrow, req, id, token, s.now);
    s.(escrow := escrow,
       pending := s.pending - {token},
       orphans := if reply.Err? then s.orphans + [req.amount] else s.orphans,
       replies := s.replies + [reply])
  }

  predicate Settles(before: Tracked, after: Tracked, id: Uuid) {
    id in before && id in after && IsActive(before[id].intent.status) && IsTerminal(after[id].intent.status)
  }

  predicate JustSpent(before: Mint, after: Mint, token: TokenId) {
    token in before && token in after && !before[token].spent && after[token].spent
  }

  /** The spend of a tracked payment's token that a call made, if it made one. */
  function SpendsAfter(s: System, id: Uuid, proof: HexKey, via: Via, after: Escrow): map<TokenId, Spend> {
    if id in s.escrow.tracked && proof.Some? && JustSpent(s.escrow.mint, after.mint, s.escrow.tracked[id].token)
    then s.spends[s.escrow.tracked[id].token := Spend(proof.value, via, UnixNow(s))]
    else s.spends
  }

  function AfterSettling(s: System, id: Uuid, proof: HexKey, via: Via, outcome: (Escrow, Reply)): System {
    s.(escrow := outcome.0,
       settlements :=
         if Settles(s.escrow.tracked, outcome.0.tracked, id)
         then s.settlements + [Settlement(id, s.escrow.tracked[id].intent.amount)]
         else s.settlements,
       receipts := if outcome.1.Ok? then s.receipts + [outcome.1.value] else s.receipts,
       replies := s.replies + [outcome.1],
       spends := SpendsAfter(s, id, proof, via, outcome.0))
  }

  function AfterDirectSpend(s: System, token: TokenId, key: Key): System {
    var mint := MintReceive(s.escrow.mint, token, key, UnixNow(s)).0;
    s.(escrow := s.escrow.(mint := mint),
       spends := if JustSpent(s.escrow.mint, mint, token) then s.spends[token := Spend(key, Elsewhere, UnixNow(s))]
                 else s.spends)
  }

  function UnixNow(s: System): int {
    s.now / NANOS
  }

  function Step(s: System, a: Action): System {
    match a
    case Tick(time) => if s.now <= time then s.(now := time) else s
    case LockFunds(req, token, mintInfo, strict, funded) =>
      if token in s.escrow.mint then s
      else
        (match Precheck(req, Circumstances(mintInfo, strict, funded, s.now, s.now))
         case Some(error) => s.(replies := s.replies + [Err(error)])
         case None => AfterLock(s, req, token, strict))
    case TrackPayment(token, id) =>
      if token !in s.pending || !WellFormed(s.pending[token]) || id in s.escrow.tracked then s
      else AfterTrack(s, token, id)
    case ClaimPayment(id, proof, network) =>
      AfterSettling(s, id, proof, ByClaim(network), Claim(s.escrow, id, proof, s.now, network))
    case RefundPayment(id, proof, network) =>
      AfterSettling(s, id, proof, ByRefund(network), Refund(s.escrow, id, proof, s.now, network))
    case SpendElsewhere(token, key) => AfterDirectSpend(s, token, key)
  }

  function After(run: seq<Action>): System {
    if run == [] then Initial else Step(After(run[..|run| - 1]), run[|run| - 1])
  }

  /** A creation nobody interrupts is its two steps, reply included. */
  lemma CreationIsLockThenTrack(
    s: System, req: CreateRequest, token: TokenId, id: Uuid, mintInfo: MintInfo, strict: bool, funded: bool, late: nat)
    requires token !in s.escrow.mint && token !in s.pending && id !in s.escrow.tracked && s.now <= late
    ensures var lock := LockFunds(req, token, mintInfo, strict, funded);
            var t := Step(Step(Step(s, lock), Tick(late)), TrackPayment(token, id));
            var (escrow, reply) := Create(s.escrow, req, id, token,
                                          Circumstances(mintInfo, strict, funded, s.now, late));
            t.escrow == escrow && t.replies == s.replies + [reply]
  {
    var error := Precheck(req, Circumstances(mintInfo, strict, funded, s.now, s.now));
    var s1 := Step(s, LockFunds(req, token, mintInfo, strict, funded));
    if error.Some? {
      assert s1 == s.(replies := s.replies + [Err(error.value)]);
    } else {
      assert s1 == AfterLock(s, req, token, strict);
      assert s1.pending[token] == req;
    }
  }

  // ---------------------------------------------------------------- the invariant

  predicate PaymentOk(mint: Mint, id: Uuid, p: TrackedPayment) {
    && p.intent.id == id
    && (p.intent.status.Claimable? || p.intent.status.Claimed? || p.intent.status.Refunded?)
    && p.token in mint
    && mint[p.token].lock.amount == p.intent.amount
    && mint[p.token].lock.locktime == UnixTime(p.locktime)
    && p.locktime > 0
    && (IsTerminal(p.intent.status) ==> mint[p.token].spent)
  }

  predicate PendingOk(mint: Mint, token: TokenId, req: CreateRequest) {
    && WellFormed(req)
    && token in mint
    && mint[token].lock == LockOf(req, mint[token].lock.strict)
  }

  ghost predicate EscrowOk(e: Escrow) {
    && (forall id | id in e.tracked :: PaymentOk(e.mint, id, e.tracked[id]))
    && (forall i, j | i in e.tracked && j in e.tracked && i != j :: e.tracked[i].token != e.tracked[j].token)
  }

  ghost predicate PendingsOk(s: System) {
    && (forall token | token in s.pending :: PendingOk(s.escrow.mint, token, s.pending[token]))
    && (forall id | id in s.escrow.tracked :: s.escrow.tracked[id].token !in s.pending)
  }

  predicate SettlementOk(tracked: Tracked, x: Settlement) {
    x.id in tracked && IsTerminal(tracked[x.id].intent.status) && x.amount == tracked[x.id].intent.amount
  }

  predicate ReceiptOk(tracked: Tracked, r: Receipt) {
    && r.id in tracked
    && IsTerminal(tracked[r.id].intent.status)
    && r.status == tracked[r.id].intent.status
    && r.amount == tracked[r.id].intent.amount
  }

  ghost predicate HistoriesOk(s: System) {
    && (forall i | 0 <= i < |s.settlements| :: SettlementOk(s.escrow.tracked, s.settlements[i]))
    && (forall i, j | 0 <= i < j < |s.settlements| :: s.settlements[i].id != s.settlements[j].id)
    && (forall i | 0 <= i < |s.receipts| :: ReceiptOk(s.escrow.tracked, s.receipts[i]))
    && (forall i, j | 0 <= i < j < |s.receipts| :: s.receipts[i].id != s.receipts[j].id)
  }

  ghost function InFlight(pending: map<TokenId, CreateRequest>): nat {
    Total(Amounts(pending))
  }

  ghost function Amounts(pending: map<TokenId, CreateRequest>): map<TokenId, nat> {
    map token | token in pending :: pending[token].amount
  }

  function SettledSats(settlements: seq<Settlement>): nat {
    Sum(seq(|settlements|, i requires 0 <= i < |settlements| => settlements[i].amount))
  }

  lemma SettledSatsAppends(settlements: seq<Settlement>, x: Settlement)
    ensures SettledSats(settlements + [x]) == SettledSats(settlements) + x.amount
  {
    var before := seq(|settlements|, i requires 0 <= i < |settlements| => settlements[i].amount);
    var longer := settlements + [x];
    assert seq(|longer|, i requires 0 <= i < |longer| => longer[i].amount) == before + [x.amount];
    SumAppends(before, x.amount);
  }

  ghost predicate Balanced(s: System) {
    Outgoing(s.escrow.tracked) + SettledSats(s.settlements) + Sum(s.orphans) + InFlight(s.pending) == Sum(s.locks)
  }

  ghost predicate Inv(s: System) {
    EscrowOk(s.escrow) && PendingsOk(s) && HistoriesOk(s) && Balanced(s)
  }

  // ---------------------------------------------------------------- what one spend does

  predicate CanSpend(mint: Mint, token: TokenId, key: Key, unixNow: int) {
    token in mint && !mint[token].spent && MaySpend(mint[token].lock, key, unixNow)
  }

  /**
    The mint hands out a token's amount at most once, to an entitled key, and the wallet learns of it exactly if
    nothing got lost; whatever was spent stays spent, and locks never change.
   */
  lemma SpendingOnce(mint: Mint, token: TokenId, key: Key, unixNow: int, network: Network)
    ensures var (after, reply) := Receive(mint, token, key, unixNow, network);
            && after.Keys == mint.Keys
            && (forall t | t in mint :: after[t].lock == mint[t].lock && (t != token ==> after[t] == mint[t]))
            && (token in mint ==>
                  (after[token].spent <==>
                    mint[token].spent || (!network.RequestLost? && CanSpend(mint, token, key, unixNow))))
            && (reply.Received? <==> network.Delivered? && CanSpend(mint, token, key, unixNow))
            && (reply.Received? ==> reply.amount == mint[token].lock.amount)
            && (reply.AlreadySpent? <==> network.Delivered? && token in mint && mint[token].spent)
  {
  }

  ghost predicate OnlySpends(before: Mint, after: Mint) {
    && before.Keys <= after.Keys
    && forall t | t in before :: after[t].lock == before[t].lock && (before[t].spent ==> after[t].spent)
  }

  /** All that a claim or refund may do to the escrow. */
  ghost predicate Moves(e: Escrow, id: Uuid, outcome: (Escrow, Reply)) {
    var (after, reply) := outcome;
    && OnlySpends(e.mint, after.mint)
    && (id !in e.tracked ==> after.tracked == e.tracked && reply.Err?)
    && (id in e.tracked ==>
          && id in after.tracked
          && after.tracked == e.tracked[id := after.tracked[id]]
          && (var (p, q) := (e.tracked[id], after.tracked[id]);
              && q.token == p.token
              && Identity(q.intent) == Identity(p.intent)
              && PaymentOk(after.mint, id, q)
              && (p.intent.status.Claimable? || q.intent.status == p.intent.status)
              && (reply.Ok? ==>
                    && p.intent.status.Claimable?
                    && IsTerminal(q.intent.status)
                    && reply.value.id == id
                    && reply.value.status == q.intent.status
                    && reply.value.amount == p.intent.amount)))
  }

  lemma ClaimMoves(e: Escrow, id: Uuid, proof: HexKey, now: Time, network: Network)
    requires id in e.tracked ==> PaymentOk(e.mint, id, e.tracked[id])
    ensures Moves(e, id, Claim(e, id, proof, now, network))
  {
    if id in e.tracked && proof.Some? {
      SpendingOnce(e.mint, e.tracked[id].token, proof.value, now / NANOS, network);
    }
  }

  lemma RefundMoves(e: Escrow, id: Uuid, proof: HexKey, now: Time, network: Network)
    requires id in e.tracked ==> PaymentOk(e.mint, id, e.tracked[id])
    ensures Moves(e, id, Refund(e, id, proof, now, network))
  {
    if id in e.tracked && proof.Some? {
      SpendingOnce(e.mint, e.tracked[id].token, proof.value, now / NANOS, network);
    }
  }

  // ---------------------------------------------------------------- every step keeps the invariant

  lemma SettlingKeepsEscrow(e: Escrow, id: Uuid, outcome: (Escrow, Reply))
    requires EscrowOk(e) && Moves(e, id, outcome)
    ensures EscrowOk(outcome.0)
  {
    forall other | other in outcome.0.tracked
      ensures PaymentOk(outcome.0.mint, other, outcome.0.tracked[other])
    {
      assert other in e.tracked && PaymentOk(e.mint, other, e.tracked[other]);
    }
    forall i, j | i in outcome.0.tracked && j in outcome.0.tracked && i != j
      ensures outcome.0.tracked[i].token != outcome.0.tracked[j].token
    {
      assert e.tracked[i].token != e.tracked[j].token;
    }
  }

  lemma SettlingKeepsPendings(s: System, id: Uuid, proof: HexKey, via: Via, outcome: (Escrow, Reply))
    requires PendingsOk(s) && Moves(s.escrow, id, outcome)
    ensures PendingsOk(AfterSettling(s, id, proof, via, outcome))
  {
  }

  /** What is settled stays as it was. */
  lemma SettledStays(e: Escrow, id: Uuid, outcome: (Escrow, Reply), other: Uuid)
    requires Moves(e, id, outcome) && other in e.tracked && IsTerminal(e.tracked[other].intent.status)
    ensures other in outcome.0.tracked
    ensures outcome.0.tracked[other].intent.status == e.tracked[other].intent.status
    ensures outcome.0.tracked[other].intent.amount == e.tracked[other].intent.amount
    ensures other == id ==> outcome.1.Err? && !Settles(e.tracked, outcome.0.tracked, id)
  {
  }

  lemma SettlingKeepsHistories(s: System, id: Uuid, proof: HexKey, via: Via, outcome: (Escrow, Reply))
    requires HistoriesOk(s) && Moves(s.escrow, id, outcome)
    ensures HistoriesOk(AfterSettling(s, id, proof, via, outcome))
  {
    var t := AfterSettling(s, id, proof, via, outcome);
    forall i | 0 <= i < |s.settlements|
      ensures SettlementOk(t.escrow.tracked, s.settlements[i])
      ensures Settles(s.escrow.tracked, t.escrow.tracked, id) ==> s.settlements[i].id != id
    {
      assert SettlementOk(s.escrow.tracked, s.settlements[i]);
      SettledStays(s.escrow, id, outcome, s.settlements[i].id);
    }
    forall i | 0 <= i < |s.receipts|
      ensures ReceiptOk(t.escrow.tracked, s.receipts[i])
      ensures outcome.1.Ok? ==> s.receipts[i].id != id
    {
      assert ReceiptOk(s.escrow.tracked, s.receipts[i]);
      SettledStays(s.escrow, id, outcome, s.receipts[i].id);
    }
  }

  /** A payment's settlement lowers the balance by its amount. */
  lemma SettlingLowersTheBalance(s: System, id: Uuid, outcome: (Escrow, Reply))
    requires Moves(s.escrow, id, outcome)
    ensures Outgoing(outcome.0.tracked) ==
            Outgoing(s.escrow.tracked)
            - (if Settles(s.escrow.tracked, outcome.0.tracked, id) then s.escrow.tracked[id].intent.amount else 0)
  {
    if id in s.escrow.tracked {
      OutgoingAfterUpdate(s.escrow.tracked, id, outcome.0.tracked[id]);
    }
  }

  lemma SettlingKeepsBalance(s: System, id: Uuid, proof: HexKey, via: Via, outcome: (Escrow, Reply))
    requires Moves(s.escrow, id, outcome)
    ensures var t := AfterSettling(s, id, proof, via, outcome);
            Outgoing(t.escrow.tracked) + SettledSats(t.settlements) ==
                Outgoing(s.escrow.tracked) + SettledSats(s.settlements)
  {
    var t := AfterSettling(s, id, proof, via, outcome);
    SettlingLowersTheBalance(s, id, outcome);
    if Settles(s.escrow.tracked, t.escrow.tracked, id) {
      SettledSatsAppends(s.settlements, Settlement(id, s.escrow.tracked[id].intent.amount));
    }
  }

  lemma SettlingKeepsInv(s: System, id: Uuid, proof: HexKey, via: Via, outcome: (Escrow, Reply))
    requires Inv(s) && Moves(s.escrow, id, outcome)
    ensures Inv(AfterSettling(s, id, proof, via, outcome))
  {
    SettlingKeepsEscrow(s.escrow, id, outcome);
    SettlingKeepsPendings(s, id, proof, via, outcome);
    SettlingKeepsHistories(s, id, proof, via, outcome);
    SettlingKeepsBalance(s, id, proof, via, outcome);
  }

  lemma SpendingKeepsInv(s: System, t: System)
    requires Inv(s) && OnlySpends(s.escrow.mint, t.escrow.mint)
    requires t == s.(escrow := s.escrow.(mint := t.escrow.mint), spends := t.spends)
    ensures Inv(t)
  {
  }

  lemma LockingKeepsBalance(s: System, req: CreateRequest, token: TokenId, strict: bool)
    requires Balanced(s) && WellFormed(req) && token !in s.pending
    ensures Balanced(AfterLock(s, req, token, strict))
  {
    var t := AfterLock(s, req, token, strict);
    assert Amounts(t.pending) == Amounts(s.pending)[token := req.amount];
    TotalAfterUpdate(Amounts(s.pending), token, req.amount);
    SumAppends(s.locks, req.amount);
  }

  lemma LockingKeepsEscrow(s: System, req: CreateRequest, token: TokenId, strict: bool)
    requires EscrowOk(s.escrow) && PendingsOk(s) && WellFormed(req) && token !in s.escrow.mint
    ensures EscrowOk(AfterLock(s, req, token, strict).escrow) && PendingsOk(AfterLock(s, req, token, strict))
  {
    var t := AfterLock(s, req, token, strict);
    forall id | id in t.escrow.tracked
      ensures PaymentOk(t.escrow.mint, id, t.escrow.tracked[id]) && t.escrow.tracked[id].token !in t.pending
    {
      assert PaymentOk(s.escrow.mint, id, s.escrow.tracked[id]);
    }
    forall other | other in t.pending
      ensures PendingOk(t.escrow.mint, other, t.pending[other])
    {
      assert other != token ==> PendingOk(s.escrow.mint, other, s.pending[other]);
    }
  }

  lemma LockingKeepsInv(s: System, req: CreateRequest, token: TokenId, strict: bool)
    requires Inv(s) && WellFormed(req) && token !in s.escrow.mint
    ensures Inv(AfterLock(s, req, token, strict))
  {
    assert token in s.pending ==> PendingOk(s.escrow.mint, token, s.pending[token]);
    LockingKeepsBalance(s, req, token, strict);
    LockingKeepsEscrow(s, req, token, strict);
  }

  lemma TrackingAddsOne(s: System, token: TokenId, id: Uuid)
    requires token in s.pending && PendingOk(s.escrow.mint, token, s.pending[token])
    ensures var (req, t) := (s.pending[token], AfterTrack(s, token, id));
            t.escrow.mint == s.escrow.mint &&
            if BuildIntent(req, id, s.now).Ok? then
              && t.orphans == s.orphans
              && t.escrow.tracked.Keys == s.escrow.tracked.Keys + {id}
              && t.escrow.tracked == s.escrow.tracked[id := t.escrow.tracked[id]]
              && (var p := t.escrow.tracked[id];
                  PaymentOk(s.escrow.mint, id, p) && p.token == token && p.intent.status.Claimable?
                    && p.intent.amount == req.amount)
            else
              t.escrow == s.escrow && t.orphans == s.orphans + [req.amount]
  {
  }

  lemma TrackingKeepsBalance(s: System, token: TokenId, id: Uuid)
    requires Balanced(s) && token in s.pending && PendingOk(s.escrow.mint, token, s.pending[token])
             && id !in s.escrow.tracked
    ensures Balanced(AfterTrack(s, token, id))
  {
    var t := AfterTrack(s, token, id);
    TrackingAddsOne(s, token, id);
    assert Amounts(t.pending) == Amounts(s.pending) - {token};
    TotalSplits(Amounts(s.pending), token);
    if BuildIntent(s.pending[token], id, s.now).Ok? {
      OutgoingAfterUpdate(s.escrow.tracked, id, t.escrow.tracked[id]);
    } else {
      SumAppends(s.orphans, s.pending[token].amount);
    }
  }

  lemma TrackingKeepsEscrow(e: Escrow, id: Uuid, p: TrackedPayment)
    requires EscrowOk(e) && id !in e.tracked && PaymentOk(e.mint, id, p)
    requires forall other | other in e.tracked :: e.tracked[other].token != p.token
    ensures EscrowOk(e.(tracked := e.tracked[id := p]))
  {
  }

  lemma TrackingKeepsHistories(s: System, token: TokenId, id: Uuid)
    requires HistoriesOk(s) && token in s.pending && WellFormed(s.pending[token]) && id !in s.escrow.tracked
    ensures HistoriesOk(AfterTrack(s, token, id))
  {
    var t := AfterTrack(s, token, id);
    assert forall other | other in s.escrow.tracked ::
             other in t.escrow.tracked && t.escrow.tracked[other] == s.escrow.tracked[other];
    forall x: Settlement | SettlementOk(s.escrow.tracked, x)
      ensures SettlementOk(t.escrow.tracked, x)
    {
    }
    forall r: Receipt | ReceiptOk(s.escrow.tracked, r)
      ensures ReceiptOk(t.escrow.tracked, r)
    {
    }
  }

  lemma TrackingKeepsPendings(s: System, token: TokenId, id: Uuid)
    requires PendingsOk(s) && token in s.pending && WellFormed(s.pending[token]) && id !in s.escrow.tracked
    ensures PendingsOk(AfterTrack(s, token, id))
  {
    var t := AfterTrack(s, token, id);
    forall other | other in t.pending
      ensures PendingOk(t.escrow.mint, other, t.pending[other])
    {
      assert PendingOk(s.escrow.mint, other, s.pending[other]);
    }
    forall other | other in t.escrow.tracked
      ensures t.escrow.tracked[other].token !in t.pending
    {
    }
  }

  lemma TrackingKeepsInv(s: System, token: TokenId, id: Uuid)
    requires Inv(s) && token in s.pending && WellFormed(s.pending[token]) && id !in s.escrow.tracked
    ensures Inv(AfterTrack(s, token, id))
  {
    assert PendingOk(s.escrow.mint, token, s.pending[token]);
    TrackingAddsOne(s, token, id);
    TrackingKeepsBalance(s, token, id);
    TrackingKeepsHistories(s, token, id);
    TrackingKeepsPendings(s, token, id);
    if BuildIntent(s.pending[token], id, s.now).Ok? {
      TrackingKeepsEscrow(s.escrow, id, AfterTrack(s, token, id).escrow.tracked[id]);
    }
  }

  /** The parts of the state that the invariant is about. */
  lemma QuietStepKeepsInv(s: System, t: System)
    requires Inv(s) && t == s.(now := t.now, replies := t.replies)
    ensures Inv(t)
  {
  }

  lemma LockFundsKeepsInv(s: System, a: Action)
    requires Inv(s) && a.LockFunds?
    ensures Inv(Step(s, a))
  {
    if a.token !in s.escrow.mint {
      var error := Precheck(a.req, Circumstances(a.mintInfo, a.strict, a.funded, s.now, s.now));
      if error.None? {
        LockingKeepsInv(s, a.req, a.token, a.strict);
      } else {
        QuietStepKeepsInv(s, s.(replies := s.replies + [Err(error.value)]));
      }
    }
  }

  lemma SpendElsewhereKeepsInv(s: System, token: TokenId, key: Key)
    requires Inv(s)
    ensures Inv(AfterDirectSpend(s, token, key))
  {
    SpendingOnce(s.escrow.mint, token, key, UnixNow(s), Delivered);
    SpendingKeepsInv(s, AfterDirectSpend(s, token, key));
  }

  lemma StepKeepsInv(s: System, a: Action)
    requires Inv(s)
    ensures Inv(Step(s, a))
  {
    match a
    case Tick(_) => QuietStepKeepsInv(s, Step(s, a));
    case LockFunds(_, _, _, _, _) => LockFundsKeepsInv(s, a);
    case TrackPayment(token, id) =>
      if token in s.pending && WellFormed(s.pending[token]) && id !in s.escrow.tracked {
        TrackingKeepsInv(s, token, id);
      }
    case ClaimPayment(id, proof, network) =>
      ClaimMoves(s.escrow, id, proof, s.now, network);
      SettlingKeepsInv(s, id, proof, ByClaim(network), Claim(s.escrow, id, proof, s.now, network));
    case RefundPayment(id, proof, network) =>
      RefundMoves(s.escrow, id, proof, s.now, network);
      SettlingKeepsInv(s, id, proof, ByRefund(network), Refund(s.escrow, id, proof, s.now, network));
    case SpendElsewhere(token, key) => SpendElsewhereKeepsInv(s, token, key);
  }

  lemma {:induction false} EveryRunKeepsInv(run: seq<Action>)
    ensures Inv(After(run))
  {
    if run != [] {
      EveryRunKeepsInv(run[..|run| - 1]);
      StepKeepsInv(After(run[..|run| - 1]), run[|run| - 1]);
    }
  }

  lemma {:induction false} EveryPaymentIsOk(run: seq<Action>, id: Uuid)
    ensures var e := After(run).escrow; id in e.tracked ==> PaymentOk(e.mint, id, e.tracked[id])
  {
    EveryRunKeepsInv(run);
  }

  // ---------------------------------------------------------------- conservation

  /**
    Every sat ever locked is in exactly one place: counted by the wallet balance, settled, orphaned by a creation that
    failed after locking, or held by a creation still running.
   */
  lemma {:induction false} LockedSatsAreConserved(run: seq<Action>)
    ensures var s := After(run);
            Outgoing(s.escrow.tracked) + SettledSats(s.settlements) + Sum(s.orphans) + InFlight(s.pending) ==
                Sum(s.locks)
  {
    EveryRunKeepsInv(run);
  }

  /** Once a payment is tracked, nothing but its own settlement changes the balance, and that by exactly its amount. */
  lemma {:induction false} BalanceChangesBySettlementOnly(run: seq<Action>, a: Action)
    requires !a.TrackPayment?
    ensures var (s, t) := (After(run), Step(After(run), a));
            && t.escrow.tracked.Keys == s.escrow.tracked.Keys
            && match a
               case ClaimPayment(id, _, _) =>
                 Outgoing(t.escrow.tracked) ==
                 Outgoing(s.escrow.tracked)
                 - (if Settles(s.escrow.tracked, t.escrow.tracked, id) then s.escrow.tracked[id].intent.amount else 0)
               case RefundPayment(id, _, _) =>
                 Outgoing(t.escrow.tracked) ==
                 Outgoing(s.escrow.tracked)
                 - (if Settles(s.escrow.tracked, t.escrow.tracked, id) then s.escrow.tracked[id].intent.amount else 0)
               case _ => Outgoing(t.escrow.tracked) == Outgoing(s.escrow.tracked)
  {
    var s := After(run);
    match a
    case ClaimPayment(id, proof, network) =>
      EveryPaymentIsOk(run, id);
      ClaimMoves(s.escrow, id, proof, s.now, network);
      SettlingLowersTheBalance(s, id, Claim(s.escrow, id, proof, s.now, network));
    case RefundPayment(id, proof, network) =>
      EveryPaymentIsOk(run, id);
      RefundMoves(s.escrow, id, proof, s.now, network);
      SettlingLowersTheBalance(s, id, Refund(s.escrow, id, proof, s.now, network));
    case _ =>
  }

  lemma {:induction false} SettledAtMostOnce(run: seq<Action>, i: nat, j: nat)
    requires i < j
    ensures var s := After(run);
            && (j < |s.settlements| ==> s.settlements[i].id != s.settlements[j].id)
            && (j < |s.receipts| ==> s.receipts[i].id != s.receipts[j].id)
  {
    EveryRunKeepsInv(run);
  }

  /** Whoever got a receipt got the whole payment, and the payment still has the status the receipt names. */
  lemma {:induction false} ReceiptsAreForTheWholePayment(run: seq<Action>, i: nat)
    requires i < |After(run).receipts|
    ensures ReceiptOk(After(run).escrow.tracked, After(run).receipts[i])
  {
    EveryRunKeepsInv(run);
  }

  lemma {:induction false} SettledPaymentsAreSpent(run: seq<Action>, id: Uuid)
    requires id in After(run).escrow.tracked && IsTerminal(After(run).escrow.tracked[id].intent.status)
    ensures var e := After(run).escrow; e.tracked[id].token in e.mint && e.mint[e.tracked[id].token].spent
  {
    EveryPaymentIsOk(run, id);
  }

  /** A payment keeps its token and identity for good, and its status once that is terminal. */
  lemma {:induction false} PaymentsEndure(run: seq<Action>, more: seq<Action>, id: Uuid)
    requires id in After(run).escrow.tracked
    ensures Endures(After(run).escrow.tracked, After(run + more).escrow.tracked, id)
  {
    if more == [] {
      assert run + more == run;
    } else {
      var (front, a) := (more[..|more| - 1], more[|more| - 1]);
      PaymentsEndure(run, front, id);
      assert (run + more)[..|run + more| - 1] == run + front;
      PaymentEndures(run + front, a, id);
    }
  }

  ghost predicate Endures(early: Tracked, late: Tracked, id: Uuid) {
    && id in early
    && id in late
    && late[id].token == early[id].token
    && Identity(late[id].intent) == Identity(early[id].intent)
    && (IsTerminal(early[id].intent.status) ==> late[id].intent.status == early[id].intent.status)
  }

  lemma {:induction false} PaymentEndures(run: seq<Action>, a: Action, id: Uuid)
    requires id in After(run).escrow.tracked
    ensures Endures(After(run).escrow.tracked, Step(After(run), a).escrow.tracked, id)
  {
    var s := After(run);
    match a
    case ClaimPayment(other, proof, network) =>
      EveryPaymentIsOk(run, other);
      ClaimMoves(s.escrow, other, proof, s.now, network);
      MovingEndures(s.escrow, other, Claim(s.escrow, other, proof, s.now, network), id);
    case RefundPayment(other, proof, network) =>
      EveryPaymentIsOk(run, other);
      RefundMoves(s.escrow, other, proof, s.now, network);
      MovingEndures(s.escrow, other, Refund(s.escrow, other, proof, s.now, network), id);
    case _ =>
  }

  lemma MovingEndures(e: Escrow, other: Uuid, outcome: (Escrow, Reply), id: Uuid)
    requires id in e.tracked && Moves(e, other, outcome)
    ensures Endures(e.tracked, outcome.0.tracked, id)
  {
  }

  // ---------------------------------------------------------------- who gets paid

  predicate Unspent(e: Escrow, id: Uuid)
    requires id in e.tracked
  {
    e.tracked[id].token in e.mint && !e.mint[e.tracked[id].token].spent
  }

  function LockHeld(e: Escrow, id: Uuid): Lock
    requires id in e.tracked && Unspent(e, id)
  {
    e.mint[e.tracked[id].token].lock
  }

  /**
    The keys the mint accepts: the recipient's always, once the lock is open the refund key, or any if there is none.
   */
  predicate IsEntitled(lock: Lock, key: Key, second: int) {
    || key == lock.recipient
    || ((lock.refund == None || lock.refund == Some(key)) && lock.locktime + (if lock.strict then 1 else 0) <= second)
  }

  /**
    A claim succeeds exactly when the mint spends the token for the presented key, and then pays the whole amount:
    no status ever stands in the way.
   */
  lemma {:induction false} ClaimPaysExactly(run: seq<Action>, id: Uuid, proof: HexKey, network: Network)
    ensures var s := After(run);
            var (after, reply) := Claim(s.escrow, id, proof, s.now, network);
            && (reply.Ok? <==>
                  && id in s.escrow.tracked
                  && proof.Some?
                  && network.Delivered?
                  && Unspent(s.escrow, id)
                  && IsEntitled(LockHeld(s.escrow, id), proof.value, s.now / 1_000_000_000))
            && (reply.Ok? ==> IsPaidOut(s.escrow, after, id, reply.value, Claimed, "claimed_", s.now))
  {
    EveryPaymentIsOk(run, id);
  }

  /** The receipt and the tracked payment after a claim or refund that paid out. */
  ghost predicate IsPaidOut(
    e: Escrow, after: Escrow, id: Uuid, r: Receipt, status: PaymentStatus, prefix: string, now: Time)
    requires id in e.tracked
  {
    && id in after.tracked
    && var (p, q) := (e.tracked[id], after.tracked[id]);
       && after.tracked == e.tracked[id := q]
       && q.token == p.token && q.locktime == p.locktime && Identity(q.intent) == Identity(p.intent)
       && q.intent.status == status && q.intent.updatedAt == now
       && r == Receipt(id, status, p.intent.amount, p.intent.recipient, p.locktime, prefix + Simple(id), None,
                       p.intent.createdAt)
  }

  /** Why a claim was refused. */
  lemma {:induction false} ClaimErrors(run: seq<Action>, id: Uuid, proof: HexKey, network: Network)
    ensures var s := After(run);
            var reply := Claim(s.escrow, id, proof, s.now, network).1;
            reply.Err? ==>
              reply.error ==
              if id !in s.escrow.tracked then NotFound
              else if proof == None then InvalidClaimProof
              else if network.Delivered? && !Unspent(s.escrow, id) then TokenAlreadySpent
              else Cdk
  {
    EveryPaymentIsOk(run, id);
  }

  /**
    A refund succeeds exactly from the locktime on, for an unspent token and an entitled key.  What the provider's
    clock check leaves to the mint is the key, and, if the mint is strict, the last second of the locktime.
   */
  lemma {:induction false} RefundPaysExactly(run: seq<Action>, id: Uuid, proof: HexKey, network: Network)
    ensures var s := After(run);
            var (after, reply) := Refund(s.escrow, id, proof, s.now, network);
            && (reply.Ok? <==>
                  && id in s.escrow.tracked
                  && s.escrow.tracked[id].locktime <= s.now
                  && proof.Some?
                  && network.Delivered?
                  && Unspent(s.escrow, id)
                  && var lock := LockHeld(s.escrow, id);
                     || proof.value == lock.recipient
                     || ((lock.refund.None? || proof.value == lock.refund.value) &&
                         (lock.strict ==> s.now / 1_000_000_000 > UnixTime(s.escrow.tracked[id].locktime))))
            && (reply.Ok? ==> IsPaidOut(s.escrow, after, id, reply.value, Refunded, "refunded_", s.now))
  {
    EveryPaymentIsOk(run, id);
    var s := After(run);
    if id in s.escrow.tracked && s.escrow.tracked[id].locktime <= s.now {
      TimelockOpens(s.escrow.tracked[id].locktime, s.now);
    }
  }

  /** Why a refund was refused. */
  lemma {:induction false} RefundErrors(run: seq<Action>, id: Uuid, proof: HexKey, network: Network)
    ensures var s := After(run);
            var reply := Refund(s.escrow, id, proof, s.now, network).1;
            reply.Err? ==>
              reply.error ==
              if id !in s.escrow.tracked then NotFound
              else if s.now < s.escrow.tracked[id].locktime then PaymentNotExpired(s.escrow.tracked[id].locktime)
              else if proof == None then InvalidClaimProof
              else if network.Delivered? && !Unspent(s.escrow, id) then TokenAlreadySpent
              else Cdk
  {
    EveryPaymentIsOk(run, id);
  }

  lemma TimelockOpens(locktime: Time, now: Time)
    requires 0 < locktime <= now
    ensures UnixTime(locktime) <= now / NANOS
  {
  }

  // ---------------------------------------------------------------- orphaned locks

  /** What a caller can check before asking for a payment. */
  predicate Acceptable(req: CreateRequest, env: Circumstances) {
    && env.mintInfo.SupportsP2pk? && env.funded
    && req.conditions.Some?
    && var c := req.conditions.value;
       && c.recipientKey.Some?
       && c.refundKey != Some(None)
       && UnixTime(env.checkedAt) < UnixTime(c.locktime)
  }

  predicate IntentRefused(req: CreateRequest, env: Circumstances)
    requires req.conditions.Some?
  {
    Trim(req.recipient) == "" || req.amount == 0 || req.conditions.value.locktime <= env.builtAt
  }

  /**
    The three outcomes of a creation: unacceptable ones change nothing; of the others, those whose intent is refused
    leave the proofs locked and untracked, and the rest hand out a claimable payment of the whole amount.
   */
  lemma CreationOutcomes(e: Escrow, req: CreateRequest, id: Uuid, token: TokenId, env: Circumstances)
    requires token !in e.mint && id !in e.tracked
    ensures var (after, reply) := Create(e, req, id, token, env);
            if !Acceptable(req, env) then reply.Err? && after == e
            else
              && after.mint.Keys == e.mint.Keys + {token}
              && after.mint - {token} == e.mint
              && !after.mint[token].spent
              && (var (c, lock) := (req.conditions.value, after.mint[token].lock);
                  && lock.amount == req.amount && Some(lock.recipient) == c.recipientKey
                  && (if c.refundKey.Some? then c.refundKey == Some(lock.refund) else lock.refund.None?)
                  && lock.locktime == UnixTime(c.locktime))
              && (reply.Err? <==> IntentRefused(req, env))
              && (reply.Err? ==> after.tracked == e.tracked)
              && (reply.Ok? ==>
                    && after.tracked.Keys == e.tracked.Keys + {id} && after.tracked - {id} == e.tracked
                    && after.tracked[id].token == token && reply.value.token == Some(token)
                    && after.tracked[id].intent.status.Claimable? && reply.value.status.Claimable?
                    && after.tracked[id].intent.amount == reply.value.amount == req.amount)
  {
    var (after, reply) := Create(e, req, id, token, env);
    if Acceptable(req, env) {
      assert after.mint - {token} == e.mint;
      assert reply.Ok? ==> after.tracked - {id} == e.tracked;
    }
  }

  /** A tracked payment is the requested one, field by field, and so is its receipt. */
  lemma CreationFields(e: Escrow, req: CreateRequest, id: Uuid, token: TokenId, env: Circumstances)
    requires Create(e, req, id, token, env).1.Ok?
    ensures var (after, reply) := Create(e, req, id, token, env);
            var locktime := req.conditions.value.locktime;
            var reference := "hnbv_claim_" + Simple(id);
            && id in after.tracked
            && after.tracked[id] ==
               TrackedPayment(PaymentIntent(id, ProtectedPayment, Claimable, req.amount, req.senderId,
                                            Trim(req.recipient),
                                            req.description, Some(locktime), Some(reference), env.builtAt, env.builtAt),
                              token, locktime)
            && reply.value ==
               Receipt(id, Claimable, req.amount, Trim(req.recipient), locktime, reference, Some(token), env.builtAt)
  {
  }

  /** Which error a refused creation gets, in the order of the checks. */
  lemma CreationErrors(e: Escrow, req: CreateRequest, id: Uuid, token: TokenId, env: Circumstances)
    requires Create(e, req, id, token, env).1.Err?
    ensures Create(e, req, id, token, env).1.error ==
            if env.mintInfo.Unreachable? then MintUnreachable
            else if env.mintInfo.NoP2pk? then Nut11NotSupported
            else if req.conditions == None then LockingCondition
            else
              var c := req.conditions.value;
              if c.recipientKey == None || c.refundKey == Some(None) then InvalidPublicKey
              else if UnixTime(c.locktime) <= UnixTime(env.checkedAt) then LockingCondition
              else if !env.funded then Cdk
              else if Trim(req.recipient) == "" then Core(EmptyRecipient)
              else if req.amount == 0 then Core(ZeroAmount)
              else Core(ExpiryNotInFuture)
  {
  }

  /**
    A locktime before 1970 wraps to the far future: it passes the check, locks the proofs for good, and is refused
    after.
   */
  lemma WrappedLocktimesAreOrphaned(e: Escrow, req: CreateRequest, id: Uuid, token: TokenId, env: Circumstances)
    requires env.mintInfo.SupportsP2pk? && env.funded &&
             0 <= env.checkedAt <= env.builtAt < 9_223_372_036_854_775_808 * 1_000_000_000
    requires WellFormed(req) && (req.conditions.value.refundKey.Some? ==> req.conditions.value.refundKey.value.Some?)
    requires -9_223_372_036_854_775_808 * 1_000_000_000 <= req.conditions.value.locktime < 0
    requires Trim(req.recipient) != "" && req.amount > 0
    ensures var (after, reply) := Create(e, req, id, token, env);
            && reply == Err(Core(ExpiryNotInFuture))
            && after.tracked == e.tracked
            && token in after.mint
            && !after.mint[token].spent
            && after.mint[token].lock.locktime >= 9_223_372_036_854_775_808
  {
    var t := req.conditions.value.locktime;
    assert t / NANOS < 0;
  }

  /** Locked at the mint, not awaited by a creation, and not tracked. */
  ghost predicate IsOrphan(s: System, token: TokenId) {
    && token in s.escrow.mint
    && token !in s.pending
    && forall id | id in s.escrow.tracked :: s.escrow.tracked[id].token != token
  }

  ghost predicate KeepsTokens(e: Escrow, f: Escrow) {
    && f.mint.Keys == e.mint.Keys
    && f.tracked.Keys == e.tracked.Keys
    && forall id | id in e.tracked :: f.tracked[id].token == e.tracked[id].token
  }

  lemma ClaimKeepsTokens(e: Escrow, id: Uuid, proof: HexKey, now: Time, network: Network)
    ensures KeepsTokens(e, Claim(e, id, proof, now, network).0)
  {
  }

  lemma RefundKeepsTokens(e: Escrow, id: Uuid, proof: HexKey, now: Time, network: Network)
    ensures KeepsTokens(e, Refund(e, id, proof, now, network).0)
  {
  }

  lemma OrphanStays(s: System, a: Action, token: TokenId)
    requires IsOrphan(s, token)
    ensures IsOrphan(Step(s, a), token)
  {
    match a
    case ClaimPayment(id, proof, network) => ClaimKeepsTokens(s.escrow, id, proof, s.now, network);
    case RefundPayment(id, proof, network) => RefundKeepsTokens(s.escrow, id, proof, s.now, network);
    case _ =>
  }

  /** Nothing ever tracks an orphaned token again. */
  lemma {:induction false} OrphansStayOrphans(run: seq<Action>, more: seq<Action>, token: TokenId)
    requires IsOrphan(After(run), token)
    ensures IsOrphan(After(run + more), token)
  {
    if more == [] {
      assert run + more == run;
    } else {
      var (front, a) := (more[..|more| - 1], more[|more| - 1]);
      OrphansStayOrphans(run, front, token);
      assert (run + more)[..|run + more| - 1] == run + front;
      OrphanStays(After(run + front), a, token);
    }
  }
}

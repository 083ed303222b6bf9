/**
  What the terminal labels of the Cashu escrow say about who was paid, over all runs of `CashuRuns`.  The answer is
  decided by the call that spends the token at the mint: only a refund whose reply arrives ends in Refunded.
 */
module CashuLabels {
  import opened Wrappers
  import opened Text
  import opened PaymentStatuses
  import opened PaymentIntents
  import opened CashuEscrow
  import opened CashuRuns

  function StatusOf(tracked: Tracked, id: Uuid): PaymentStatus
    requires id in tracked
  {
    tracked[id].intent.status
  }

  predicate Receipted(receipts: seq<Receipt>, id: Uuid) {
    exists i | 0 <= i < |receipts| :: receipts[i].id == id
  }

  lemma ReceiptedAfter(receipts: seq<Receipt>, r: Receipt, id: Uuid)
    ensures Receipted(receipts + [r], id) <==> Receipted(receipts, id) || r.id == id
  {
    assert forall i | 0 <= i < |receipts| :: (receipts + [r])[i] == receipts[i];
    assert (receipts + [r])[|receipts|] == r;
  }

  /** The spend was a call of the provider whose reply arrived. */
  predicate IsPayout(via: Via) {
    via == ByClaim(Delivered) || via == ByRefund(Delivered)
  }

  // ---------------------------------------------------------------- the invariant

  /** How the label of one payment, the spend of its token, if any, and the receipts go together. */
  ghost predicate LabelOk(s: System, id: Uuid)
    requires id in s.escrow.tracked
  {
    var token := s.escrow.tracked[id].token;
    match StatusOf(s.escrow.tracked, id)
    case Claimable => (token in s.spends ==> !IsPayout(s.spends[token].via)) && !Receipted(s.receipts, id)
    case Refunded => token in s.spends && s.spends[token].via == ByRefund(Delivered) && Receipted(s.receipts, id)
    case Claimed =>
      && token in s.spends
      && s.spends[token].via != ByRefund(Delivered)
      && (s.spends[token].via == ByClaim(Delivered) <==> Receipted(s.receipts, id))
    case _ => false
  }

  predicate IsSpent(mint: Mint, token: TokenId) {
    token in mint && mint[token].spent
  }

  /** The spends on record are those of the mint, each by a key entitled to it at the time. */
  ghost predicate SpendOk(s: System, token: TokenId) {
    && (token in s.spends <==> IsSpent(s.escrow.mint, token))
    && (token in s.spends ==>
          && s.spends[token].at <= UnixNow(s)
          && MaySpend(s.escrow.mint[token].lock, s.spends[token].key, s.spends[token].at)
          && (token in s.pending ==> s.spends[token].via.Elsewhere?))
  }

  ghost predicate LabelsOk(s: System) {
    && (forall token: TokenId :: SpendOk(s, token))
    && (forall id | id in s.escrow.tracked :: LabelOk(s, id))
  }

  /** What a claim or refund does to the label and the token of its payment. */
  ghost predicate Relabels(e: Escrow, id: Uuid, proof: HexKey, via: Via, unixNow: int, outcome: (Escrow, Reply))
    requires id in e.tracked
  {
    var (after, reply) := outcome;
    var token := e.tracked[id].token;
    && id in after.tracked
    && after.tracked == e.tracked[id := after.tracked[id]]
    && after.tracked[id].token == token
    && token in e.mint && token in after.mint
    && after.mint == e.mint[token := after.mint[token]]
    && after.mint[token].lock == e.mint[token].lock
    && (e.mint[token].spent ==> after.mint[token].spent)
    && (JustSpent(e.mint, after.mint, token) ==> proof.Some? && CanSpend(e.mint, token, proof.value, unixNow))
    && (reply.Ok? <==> JustSpent(e.mint, after.mint, token) && IsPayout(via))
    && (reply.Ok? ==>
          && reply.value.id == id
          && StatusOf(e.tracked, id).Claimable?
          && StatusOf(after.tracked, id) == if via.ByRefund? then Refunded else Claimed)
    && (reply.Err? ==>
          || StatusOf(after.tracked, id) == StatusOf(e.tracked, id)
          || (StatusOf(e.tracked, id).Claimable? && StatusOf(after.tracked, id).Claimed? && e.mint[token].spent))
  }

  lemma ClaimRelabels(e: Escrow, id: Uuid, proof: HexKey, now: Time, network: Network)
    requires id in e.tracked && PaymentOk(e.mint, id, e.tracked[id])
    ensures Relabels(e, id, proof, ByClaim(network), now / NANOS, Claim(e, id, proof, now, network))
  {
    if proof.Some? {
      SpendingOnce(e.mint, e.tracked[id].token, proof.value, now / NANOS, network);
    }
  }

  lemma RefundRelabels(e: Escrow, id: Uuid, proof: HexKey, now: Time, network: Network)
    requires id in e.tracked && PaymentOk(e.mint, id, e.tracked[id])
    ensures Relabels(e, id, proof, ByRefund(network), now / NANOS, Refund(e, id, proof, now, network))
  {
    if proof.Some? {
      SpendingOnce(e.mint, e.tracked[id].token, proof.value, now / NANOS, network);
    }
  }

  // ---------------------------------------------------------------- every step keeps it

  lemma SettlingKeepsSpends(s: System, id: Uuid, proof: HexKey, via: Via, outcome: (Escrow, Reply), token: TokenId)
    requires id in s.escrow.tracked && s.escrow.tracked[id].token !in s.pending
    requires Relabels(s.escrow, id, proof, via, UnixNow(s), outcome) && SpendOk(s, token)
    ensures SpendOk(AfterSettling(s, id, proof, via, outcome), token)
  {
  }

  lemma SettlingKeepsLabel(s: System, id: Uuid, proof: HexKey, via: Via, outcome: (Escrow, Reply), other: Uuid)
    requires id in s.escrow.tracked && other in s.escrow.tracked && !via.Elsewhere?
    requires other != id ==> s.escrow.tracked[other].token != s.escrow.tracked[id].token
    requires Relabels(s.escrow, id, proof, via, UnixNow(s), outcome)
    requires LabelOk(s, other) && SpendOk(s, s.escrow.tracked[other].token)
    ensures other in outcome.0.tracked && LabelOk(AfterSettling(s, id, proof, via, outcome), other)
  {
    if outcome.1.Ok? {
      ReceiptedAfter(s.receipts, outcome.1.value, other);
    }
  }

  lemma SettlingKeepsLabels(s: System, id: Uuid, proof: HexKey, via: Via, outcome: (Escrow, Reply))
    requires Inv(s) && LabelsOk(s) && id in s.escrow.tracked && !via.Elsewhere?
    requires Relabels(s.escrow, id, proof, via, UnixNow(s), outcome)
    ensures LabelsOk(AfterSettling(s, id, proof, via, outcome))
  {
    forall token: TokenId
      ensures SpendOk(AfterSettling(s, id, proof, via, outcome), token)
    {
      SettlingKeepsSpends(s, id, proof, via, outcome, token);
    }
    forall other | other in outcome.0.tracked
      ensures LabelOk(AfterSettling(s, id, proof, via, outcome), other)
    {
      SettlingKeepsLabel(s, id, proof, via, outcome, other);
    }
  }

  /** A step that touches neither labels nor receipts, nor the tokens of tracked payments. */
  lemma LabelStays(s: System, t: System, id: Uuid)
    requires id in s.escrow.tracked && id in t.escrow.tracked && t.escrow.tracked[id] == s.escrow.tracked[id]
    requires t.receipts == s.receipts && LabelOk(s, id)
    requires var token := s.escrow.tracked[id].token;
             && (token in s.spends ==> token in t.spends && t.spends[token] == s.spends[token])
             && (token in t.spends && token !in s.spends ==> t.spends[token].via.Elsewhere?)
    ensures LabelOk(t, id)
  {
  }

  lemma DirectSpendKeepsLabels(s: System, token: TokenId, key: Key)
    requires LabelsOk(s)
    ensures LabelsOk(AfterDirectSpend(s, token, key))
  {
    var t := AfterDirectSpend(s, token, key);
    forall other: TokenId
      ensures SpendOk(t, other)
    {
      assert SpendOk(s, other);
    }
    assert SpendOk(s, token);
    forall id | id in t.escrow.tracked
      ensures LabelOk(t, id)
    {
      LabelStays(s, t, id);
    }
  }

  lemma LockingKeepsLabels(s: System, req: CreateRequest, token: TokenId, strict: bool)
    requires LabelsOk(s) && WellFormed(req) && token !in s.escrow.mint
    ensures LabelsOk(AfterLock(s, req, token, strict))
  {
    var t := AfterLock(s, req, token, strict);
    forall other: TokenId
      ensures SpendOk(t, other)
    {
      assert SpendOk(s, other);
    }
    forall id | id in t.escrow.tracked
      ensures LabelOk(t, id)
    {
      LabelStays(s, t, id);
    }
  }

  lemma NewPaymentIsLabelled(s: System, t: System, token: TokenId, id: Uuid)
    requires id in t.escrow.tracked && t.escrow.tracked[id].token == token && StatusOf(t.escrow.tracked, id).Claimable?
    requires t.spends == s.spends && t.receipts == s.receipts && !Receipted(s.receipts, id)
    requires token in s.pending && SpendOk(s, token)
    ensures LabelOk(t, id)
  {
  }

  lemma TrackingKeepsLabels(s: System, token: TokenId, id: Uuid)
    requires Inv(s) && LabelsOk(s) && token in s.pending && WellFormed(s.pending[token]) && id !in s.escrow.tracked
    ensures LabelsOk(AfterTrack(s, token, id))
  {
    var t := AfterTrack(s, token, id);
    assert PendingOk(s.escrow.mint, token, s.pending[token]);
    assert !Receipted(s.receipts, id);
    TrackingAddsOne(s, token, id);
    forall other: TokenId
      ensures SpendOk(t, other)
    {
      assert SpendOk(s, other);
    }
    forall other | other in t.escrow.tracked
      ensures LabelOk(t, other)
    {
      if other in s.escrow.tracked {
        LabelStays(s, t, other);
      } else {
        NewPaymentIsLabelled(s, t, token, id);
      }
    }
  }

  lemma QuietStepKeepsLabels(s: System, t: System)
    requires LabelsOk(s) && t == s.(now := t.now, replies := t.replies) && s.now <= t.now
    ensures LabelsOk(t)
  {
    forall token: TokenId
      ensures SpendOk(t, token)
    {
      assert SpendOk(s, token);
    }
    forall id | id in t.escrow.tracked
      ensures LabelOk(t, id)
    {
      LabelStays(s, t, id);
    }
  }

  lemma LockFundsKeepsLabels(s: System, a: Action)
    requires LabelsOk(s) && a.LockFunds?
    ensures LabelsOk(Step(s, a))
  {
    if a.token !in s.escrow.mint {
      var error := Precheck(a.req, Circumstances(a.mintInfo, a.strict, a.funded, s.now, s.now));
      if error.None? {
        LockingKeepsLabels(s, a.req, a.token, a.strict);
      } else {
        QuietStepKeepsLabels(s, s.(replies := s.replies + [Err(error.value)]));
      }
    }
  }

  lemma StepKeepsLabels(s: System, a: Action)
    requires Inv(s) && LabelsOk(s)
    ensures LabelsOk(Step(s, a))
  {
    match a
    case Tick(_) => QuietStepKeepsLabels(s, Step(s, a));
    case LockFunds(_, _, _, _, _) => LockFundsKeepsLabels(s, a);
    case TrackPayment(token, id) =>
      if token in s.pending && WellFormed(s.pending[token]) && id !in s.escrow.tracked {
        TrackingKeepsLabels(s, token, id);
      }
    case ClaimPayment(id, proof, network) =>
      if id in s.escrow.tracked {
        ClaimRelabels(s.escrow, id, proof, s.now, network);
        SettlingKeepsLabels(s, id, proof, ByClaim(network), Claim(s.escrow, id, proof, s.now, network));
      } else {
        QuietStepKeepsLabels(s, s.(replies := s.replies + [Err(NotFound)]));
      }
    case RefundPayment(id, proof, network) =>
      if id in s.escrow.tracked {
        RefundRelabels(s.escrow, id, proof, s.now, network);
        SettlingKeepsLabels(s, id, proof, ByRefund(network), Refund(s.escrow, id, proof, s.now, network));
      } else {
        QuietStepKeepsLabels(s, s.(replies := s.replies + [Err(NotFound)]));
      }
    case SpendElsewhere(token, key) => DirectSpendKeepsLabels(s, token, key);
  }

  lemma {:induction false} EveryRunKeepsLabels(run: seq<Action>)
    ensures LabelsOk(After(run))
  {
    if run != [] {
      EveryRunKeepsLabels(run[..|run| - 1]);
      EveryRunKeepsInv(run[..|run| - 1]);
      StepKeepsLabels(After(run[..|run| - 1]), run[|run| - 1]);
    }
  }

  lemma {:induction false} LabelOfRun(run: seq<Action>, id: Uuid)
    requires id in After(run).escrow.tracked
    ensures LabelOk(After(run), id) && SpendOk(After(run), After(run).escrow.tracked[id].token)
  {
    EveryRunKeepsLabels(run);
  }

  lemma {:induction false} SpendOfRun(run: seq<Action>, token: TokenId)
    ensures SpendOk(After(run), token)
  {
    EveryRunKeepsLabels(run);
  }

  // ---------------------------------------------------------------- what a label means

  /**
    Refunded means that a refund call of the provider spent the token and handed out its receipt, nothing else.
    Claimed means that the token was spent in any other way, known to the provider by a receipt only if by a claim.
   */
  lemma {:induction false} LabelsFollowTheSpend(run: seq<Action>, id: Uuid)
    requires id in After(run).escrow.tracked
    ensures var s := After(run);
            var (status, token) := (StatusOf(s.escrow.tracked, id), s.escrow.tracked[id].token);
            && (token in s.spends <==> IsSpent(s.escrow.mint, token))
            && (status.Refunded? <==> token in s.spends && s.spends[token].via == ByRefund(Delivered))
            && (status.Refunded? <==>
                 exists i | 0 <= i < |s.receipts| :: s.receipts[i].id == id && s.receipts[i].status.Refunded?)
            && (status.Claimed? ==> token in s.spends && s.spends[token].via != ByRefund(Delivered))
            && (Receipted(s.receipts, id) <==> token in s.spends && IsPayout(s.spends[token].via))
  {
    var s := After(run);
    LabelOfRun(run, id);
    ReceiptsNameTheLabel(run, id);
  }

  lemma {:induction false} ReceiptsNameTheLabel(run: seq<Action>, id: Uuid)
    requires id in After(run).escrow.tracked
    ensures forall i | 0 <= i < |After(run).receipts| && After(run).receipts[i].id == id ::
              After(run).receipts[i].status == StatusOf(After(run).escrow.tracked, id)
  {
    forall i | 0 <= i < |After(run).receipts| && After(run).receipts[i].id == id
      ensures After(run).receipts[i].status == StatusOf(After(run).escrow.tracked, id)
    {
      ReceiptsAreForTheWholePayment(run, i);
    }
  }

  /** The label names the party that was paid: Claimed for the recipient's key, Refunded for any other. */
  ghost predicate NamesThePayee(s: System, id: Uuid)
    requires id in s.escrow.tracked && s.escrow.tracked[id].token in s.spends
             && s.escrow.tracked[id].token in s.escrow.mint
  {
    var token := s.escrow.tracked[id].token;
    StatusOf(s.escrow.tracked, id).Claimed? <==> s.spends[token].key == s.escrow.mint[token].lock.recipient
  }

  /**
    The exact condition: a terminal label names the payee if and only if the token was spent by a refund call whose
    reply arrived, in case another key than the recipient's signed, and in any other way, in case the recipient's did.
   */
  lemma {:induction false} LabelNamesThePayeeExactly(run: seq<Action>, id: Uuid)
    requires id in After(run).escrow.tracked && IsTerminal(StatusOf(After(run).escrow.tracked, id))
    ensures var s := After(run);
            var token := s.escrow.tracked[id].token;
            && token in s.spends && token in s.escrow.mint
            && (NamesThePayee(s, id) <==>
                  (s.spends[token].via == ByRefund(Delivered) <==>
                      s.spends[token].key != s.escrow.mint[token].lock.recipient))
  {
    LabelOfRun(run, id);
  }

  /** Before the timelock opens only the recipient's key can have spent a token, whatever the label. */
  lemma {:induction false} EarlySpendsAreTheRecipients(run: seq<Action>, token: TokenId)
    requires token in After(run).spends
    ensures var s := After(run);
            && token in s.escrow.mint
            && (s.spends[token].key == s.escrow.mint[token].lock.recipient
                || IsOpen(s.escrow.mint[token].lock, s.spends[token].at))
  {
    EveryRunKeepsLabels(run);
    assert SpendOk(After(run), token);
  }

  // ---------------------------------------------------------------- the spending call decides the label

  /** The key an action signs with, and the label it leaves if it spends a payment's token. */
  function KeyOf(a: Action): HexKey {
    match a
    case ClaimPayment(_, proof, _) => proof
    case RefundPayment(_, proof, _) => proof
    case SpendElsewhere(_, key) => Some(key)
    case _ => None
  }

  predicate EndsInRefunded(a: Action) {
    a.RefundPayment? && a.network.Delivered?
  }

  lemma SpendIsRecorded(s: System, a: Action, token: TokenId)
    requires LabelsOk(s) && Inv(s)
    requires !IsSpent(s.escrow.mint, token) && IsSpent(Step(s, a).escrow.mint, token)
    ensures var t := Step(s, a);
            && token in t.spends
            && KeyOf(a) == Some(t.spends[token].key)
            && (t.spends[token].via == ByRefund(Delivered) <==> EndsInRefunded(a))
  {
    match a
    case ClaimPayment(id, proof, network) =>
      if id in s.escrow.tracked {
        ClaimRelabels(s.escrow, id, proof, s.now, network);
      }
    case RefundPayment(id, proof, network) =>
      if id in s.escrow.tracked {
        RefundRelabels(s.escrow, id, proof, s.now, network);
      }
    case SpendElsewhere(_, _) =>
    case _ =>
  }

  /** The lock of a token never changes, and neither does the record of its spend. */
  ghost predicate TokenStays(s: System, t: System, token: TokenId) {
    && (token in s.escrow.mint ==> token in t.escrow.mint && t.escrow.mint[token].lock == s.escrow.mint[token].lock)
    && (token in s.spends ==> token in t.spends && t.spends[token] == s.spends[token])
  }

  lemma SettlingKeepsToken(s: System, id: Uuid, proof: HexKey, via: Via, outcome: (Escrow, Reply), token: TokenId)
    requires id in s.escrow.tracked && Relabels(s.escrow, id, proof, via, UnixNow(s), outcome) && SpendOk(s, token)
    ensures TokenStays(s, AfterSettling(s, id, proof, via, outcome), token)
  {
  }

  lemma {:induction false} TokenStaysOneStep(run: seq<Action>, a: Action, token: TokenId)
    ensures TokenStays(After(run), Step(After(run), a), token)
  {
    var s := After(run);
    SpendOfRun(run, token);
    match a
    case ClaimPayment(id, proof, network) =>
      if id in s.escrow.tracked {
        EveryPaymentIsOk(run, id);
        ClaimRelabels(s.escrow, id, proof, s.now, network);
        SettlingKeepsToken(s, id, proof, ByClaim(network), Claim(s.escrow, id, proof, s.now, network), token);
      }
    case RefundPayment(id, proof, network) =>
      if id in s.escrow.tracked {
        EveryPaymentIsOk(run, id);
        RefundRelabels(s.escrow, id, proof, s.now, network);
        SettlingKeepsToken(s, id, proof, ByRefund(network), Refund(s.escrow, id, proof, s.now, network), token);
      }
    case _ =>
  }

  lemma {:induction false} SpendsAreFinal(run: seq<Action>, more: seq<Action>, token: TokenId)
    ensures TokenStays(After(run), After(run + more), token)
  {
    if more == [] {
      assert run + more == run;
    } else {
      var (front, a) := (more[..|more| - 1], more[|more| - 1]);
      SpendsAreFinal(run, front, token);
      assert (run + more)[..|run + more| - 1] == run + front;
      TokenStaysOneStep(run + front, a, token);
    }
  }

  /**
    What a caller can foresee: if an action spends a payment's token, then the label the payment ends with, however
    long after, names the payee exactly if the action is a delivered refund signed with another key than the
    recipient's, or any other action signed with the recipient's.
   */
  lemma {:induction false} SpendingCallDecidesTheLabel(run: seq<Action>, a: Action, more: seq<Action>, id: Uuid)
    requires id in After(run).escrow.tracked
    requires var token := After(run).escrow.tracked[id].token;
             !IsSpent(After(run).escrow.mint, token) && IsSpent(Step(After(run), a).escrow.mint, token)
    requires id in After(run + [a] + more).escrow.tracked
             && IsTerminal(StatusOf(After(run + [a] + more).escrow.tracked, id))
    ensures var (s, t) := (After(run), After(run + [a] + more));
            var token := s.escrow.tracked[id].token;
            && t.escrow.tracked[id].token == token
            && token in t.spends && token in s.escrow.mint && token in t.escrow.mint
            && (StatusOf(t.escrow.tracked, id).Refunded? <==> EndsInRefunded(a))
            && (NamesThePayee(t, id) <==>
                 (EndsInRefunded(a) <==> KeyOf(a) != Some(s.escrow.mint[token].lock.recipient)))
  {
    var token := After(run).escrow.tracked[id].token;
    RecordedByRun(run, a, token);
    EveryPaymentIsOk(run, id);
    FromSpendOn(run, a, more, id);
    LabelOfRun(run + [a] + more, id);
    SpendDecides(After(run), Step(After(run), a), After(run + [a] + more), a, id, token);
  }

  lemma {:induction false} FromSpendOn(run: seq<Action>, a: Action, more: seq<Action>, id: Uuid)
    requires id in After(run).escrow.tracked
    ensures var (s, t) := (After(run), After(run + [a] + more));
            var token := s.escrow.tracked[id].token;
            && id in t.escrow.tracked && t.escrow.tracked[id].token == token
            && TokenStays(s, t, token) && TokenStays(Step(s, a), t, token)
  {
    var token := After(run).escrow.tracked[id].token;
    assert (run + [a])[..|run|] == run;
    assert run + ([a] + more) == run + [a] + more;
    PaymentsEndure(run, [a] + more, id);
    SpendsAreFinal(run, [a] + more, token);
    SpendsAreFinal(run + [a], more, token);
  }

  lemma SpendDecides(s: System, u: System, t: System, a: Action, id: Uuid, token: TokenId)
    requires id in t.escrow.tracked && t.escrow.tracked[id].token == token
    requires LabelOk(t, id) && IsTerminal(StatusOf(t.escrow.tracked, id))
    requires token in u.spends && KeyOf(a) == Some(u.spends[token].key)
    requires u.spends[token].via == ByRefund(Delivered) <==> EndsInRefunded(a)
    requires token in s.escrow.mint && TokenStays(s, t, token) && TokenStays(u, t, token)
    ensures token in t.spends && token in t.escrow.mint
    ensures StatusOf(t.escrow.tracked, id).Refunded? <==> EndsInRefunded(a)
    ensures NamesThePayee(t, id) <==>
              (EndsInRefunded(a) <==> KeyOf(a) != Some(s.escrow.mint[token].lock.recipient))
  {
  }

  lemma {:induction false} RecordedByRun(run: seq<Action>, a: Action, token: TokenId)
    requires !IsSpent(After(run).escrow.mint, token) && IsSpent(Step(After(run), a).escrow.mint, token)
    ensures var t := Step(After(run), a);
            && token in t.spends
            && KeyOf(a) == Some(t.spends[token].key)
            && (t.spends[token].via == ByRefund(Delivered) <==> EndsInRefunded(a))
  {
    EveryRunKeepsLabels(run);
    EveryRunKeepsInv(run);
    SpendIsRecorded(After(run), a, token);
  }

  // ---------------------------------------------------------------- when a payment leaves the balance

  /** The calls that move a claimable payment to a terminal label. */
  ghost predicate Terminates(s: System, a: Action, id: Uuid)
    requires id in s.escrow.tracked
  {
    var token := s.escrow.tracked[id].token;
    match a
    case ClaimPayment(i, Some(key), Delivered) => i == id && CanSpend(s.escrow.mint, token, key, UnixNow(s))
    case RefundPayment(i, Some(key), Delivered) =>
      && i == id && s.escrow.tracked[id].locktime <= s.now
      && (IsSpent(s.escrow.mint, token) || CanSpend(s.escrow.mint, token, key, UnixNow(s)))
    case _ => false
  }

  lemma ClaimEnds(e: Escrow, id: Uuid, proof: HexKey, now: Time, network: Network)
    requires id in e.tracked && PaymentOk(e.mint, id, e.tracked[id]) && StatusOf(e.tracked, id).Claimable?
    ensures var after := Claim(e, id, proof, now, network).0.tracked;
            && id in after
            && StatusOf(after, id) ==
               if network.Delivered? && proof.Some? && CanSpend(e.mint, e.tracked[id].token, proof.value, now / NANOS)
               then Claimed else Claimable
  {
  }

  lemma RefundEnds(e: Escrow, id: Uuid, proof: HexKey, now: Time, network: Network)
    requires id in e.tracked && PaymentOk(e.mint, id, e.tracked[id]) && StatusOf(e.tracked, id).Claimable?
    ensures var after := Refund(e, id, proof, now, network).0.tracked;
            var token := e.tracked[id].token;
            && id in after
            && StatusOf(after, id) ==
               if network.Delivered? && proof.Some? && e.tracked[id].locktime <= now then
                 if e.mint[token].spent then Claimed
                 else if CanSpend(e.mint, token, proof.value, now / NANOS) then Refunded else Claimable
               else Claimable
  {
  }

  lemma OthersUntouched(s: System, a: Action, id: Uuid)
    requires id in s.escrow.tracked && (a.ClaimPayment? || a.RefundPayment? ==> a.id != id)
    ensures id in Step(s, a).escrow.tracked && Step(s, a).escrow.tracked[id] == s.escrow.tracked[id]
  {
  }

  /** A payment ends exactly by a call that gets its token, or by a refund attempt that finds the token gone. */
  lemma {:induction false} ClaimableEndsExactly(run: seq<Action>, a: Action, id: Uuid)
    requires id in After(run).escrow.tracked && StatusOf(After(run).escrow.tracked, id).Claimable?
    ensures var (s, t) := (After(run), Step(After(run), a));
            && id in t.escrow.tracked
            && (StatusOf(t.escrow.tracked, id).Claimable? <==> !Terminates(s, a, id))
            && (!StatusOf(t.escrow.tracked, id).Claimable? ==> IsTerminal(StatusOf(t.escrow.tracked, id)))
            && (IsSpent(s.escrow.mint, s.escrow.tracked[id].token) ==> !StatusOf(t.escrow.tracked, id).Refunded?)
  {
    var s := After(run);
    EveryPaymentIsOk(run, id);
    if (a.ClaimPayment? || a.RefundPayment?) && a.id == id {
      ClaimEnds(s.escrow, id, a.proof, s.now, a.network);
      RefundEnds(s.escrow, id, a.proof, s.now, a.network);
    } else {
      OthersUntouched(s, a, id);
    }
  }

  /**
    A refund that finds the token spent relabels exactly a claimable payment past its locktime, and always as Claimed.
   */
  lemma {:induction false} RefundRelabelsExactly(run: seq<Action>, id: Uuid, proof: HexKey, network: Network)
    requires id in After(run).escrow.tracked && StatusOf(After(run).escrow.tracked, id).Claimable?
    ensures var s := After(run);
            var after := Refund(s.escrow, id, proof, s.now, network).0;
            && id in after.tracked
            && (StatusOf(after.tracked, id).Claimed? <==>
                  s.escrow.tracked[id].locktime <= s.now && proof.Some? && network.Delivered? && !Unspent(s.escrow, id))
  {
    EveryPaymentIsOk(run, id);
  }

  /**
    A claim that finds the token spent is answered as if the sender had refunded, but the label never follows:
    Claimable has no edge to Refunded.
   */
  lemma {:induction false} LateClaimNeverRelabels(run: seq<Action>, id: Uuid, proof: HexKey, network: Network)
    requires Claim(After(run).escrow, id, proof, After(run).now, network).1 == Err(TokenAlreadySpent)
    ensures var s := After(run);
            var after := Claim(s.escrow, id, proof, s.now, network).0;
            && id in s.escrow.tracked
            && after.tracked[id].intent.status == s.escrow.tracked[id].intent.status
            && Outgoing(after.tracked) == Outgoing(s.escrow.tracked)
  {
    var s := After(run);
    EveryPaymentIsOk(run, id);
    var after := Claim(s.escrow, id, proof, s.now, network).0;
    OutgoingAfterUpdate(s.escrow.tracked, id, after.tracked[id]);
  }

  /**
    What a call on a spent token changes: nothing at the mint; a refund turns Claimable into Claimed; and a call whose
    label the payment already has, a claim's Refunded or a refund's Claimed, stamps the update time once more.
   */
  lemma {:induction false} SpentTokenCalls(run: seq<Action>, id: Uuid, key: Key)
    requires id in After(run).escrow.tracked && IsSpent(After(run).escrow.mint, After(run).escrow.tracked[id].token)
    ensures var s := After(run);
            var p := s.escrow.tracked[id];
            var claimed := Claim(s.escrow, id, Some(key), s.now, Delivered);
            var refunded := Refund(s.escrow, id, Some(key), s.now, Delivered);
            && claimed.1 == Err(TokenAlreadySpent)
            && claimed.0 ==
               (if p.intent.status == Refunded
                then s.escrow.(tracked := s.escrow.tracked[id := p.(intent := p.intent.(updatedAt := s.now))])
                else s.escrow)
            && refunded.1 == Err(if s.now < p.locktime then PaymentNotExpired(p.locktime) else TokenAlreadySpent)
            && refunded.0 ==
               if s.now < p.locktime || p.intent.status == Refunded then s.escrow
               else s.escrow.(tracked :=
                                s.escrow.tracked[id := p.(intent := p.intent.(status := Claimed, updatedAt := s.now))])
  {
    EveryPaymentIsOk(run, id);
    var e := After(run).escrow;
    assert e.tracked[id := e.tracked[id]] == e.tracked;
  }

  /** A refund attempt that gets an answer from the mint, from the locktime on. */
  predicate AsksForRefund(s: System, a: Action, id: Uuid)
    requires id in s.escrow.tracked
  {
    a.RefundPayment? && a.id == id && a.proof.Some? && a.network.Delivered? && s.escrow.tracked[id].locktime <= s.now
  }

  /** The system after the first `i` of the further actions. */
  function Within(run: seq<Action>, more: seq<Action>, i: nat): System
    requires i <= |more|
  {
    After(run + more[..i])
  }

  ghost predicate AskedAt(run: seq<Action>, more: seq<Action>, i: nat, id: Uuid)
    requires i < |more|
  {
    id in Within(run, more, i).escrow.tracked && AsksForRefund(Within(run, more, i), more[i], id)
  }

  /** Some action of `more` is a refund attempt that the mint answers in time. */
  ghost predicate RefundWasAsked(run: seq<Action>, more: seq<Action>, id: Uuid) {
    exists i | 0 <= i < |more| :: AskedAt(run, more, i, id)
  }

  lemma AskedAtShortened(run: seq<Action>, more: seq<Action>, n: nat, i: nat, id: Uuid)
    requires i < n <= |more|
    ensures AskedAt(run, more[..n], i, id) <==> AskedAt(run, more, i, id)
  {
    assert more[..n][..i] == more[..i];
  }

  lemma AskedWithin(run: seq<Action>, more: seq<Action>, id: Uuid)
    requires more != []
    ensures var n := |more| - 1;
            RefundWasAsked(run, more, id) <==> RefundWasAsked(run, more[..n], id) || AskedAt(run, more, n, id)
  {
    var n := |more| - 1;
    forall i: nat | i < n
      ensures AskedAt(run, more[..n], i, id) <==> AskedAt(run, more, i, id)
    {
      AskedAtShortened(run, more, n, i, id);
    }
  }

  lemma {:induction false} SpentPaymentStays(run: seq<Action>, more: seq<Action>, id: Uuid)
    requires id in After(run).escrow.tracked && IsSpent(After(run).escrow.mint, After(run).escrow.tracked[id].token)
    ensures var (s, t) := (After(run), After(run + more));
            && id in t.escrow.tracked
            && IsSpent(t.escrow.mint, t.escrow.tracked[id].token)
            && t.escrow.tracked[id].intent.amount == s.escrow.tracked[id].intent.amount
            && (IsTerminal(StatusOf(s.escrow.tracked, id)) ==>
                 StatusOf(t.escrow.tracked, id) == StatusOf(s.escrow.tracked, id))
  {
    LabelOfRun(run, id);
    PaymentsEndure(run, more, id);
    SpendsAreFinal(run, more, After(run).escrow.tracked[id].token);
    LabelOfRun(run + more, id);
  }

  /**
    When spent sats leave the balance: a claimable payment whose token is spent stays claimable, and is counted in
    full, until exactly the first refund attempt from the locktime on that the mint answers; and that labels it
    Claimed.
   */
  lemma {:induction false} SpentTokenLeavesTheBalanceExactly(run: seq<Action>, more: seq<Action>, id: Uuid)
    requires id in After(run).escrow.tracked && StatusOf(After(run).escrow.tracked, id).Claimable?
    requires IsSpent(After(run).escrow.mint, After(run).escrow.tracked[id].token)
    ensures var (s, t) := (After(run), After(run + more));
            && id in t.escrow.tracked
            && StatusOf(t.escrow.tracked, id) == (if RefundWasAsked(run, more, id) then Claimed else Claimable)
            && Weight(t.escrow.tracked[id]) ==
               if RefundWasAsked(run, more, id) then 0 else s.escrow.tracked[id].intent.amount
  {
    SpentPaymentStays(run, more, id);
    if more == [] {
      assert run + more == run;
    } else {
      var n := |more| - 1;
      SpentTokenLeavesTheBalanceExactly(run, more[..n], id);
      SpentPaymentStays(run, more[..n], id);
      AskedWithin(run, more, id);
      assert (run + more)[..|run + more| - 1] == run + more[..n];
      NextRefundRelabels(run + more[..n], more[n], id);
    }
  }

  lemma {:induction false} NextRefundRelabels(run: seq<Action>, a: Action, id: Uuid)
    requires id in After(run).escrow.tracked && IsSpent(After(run).escrow.mint, After(run).escrow.tracked[id].token)
    requires !StatusOf(After(run).escrow.tracked, id).Refunded?
    ensures var (s, t) := (After(run), Step(After(run), a));
            && id in t.escrow.tracked
            && StatusOf(t.escrow.tracked, id) ==
               if AsksForRefund(s, a, id) then Claimed else StatusOf(s.escrow.tracked, id)
  {
    EveryPaymentIsOk(run, id);
    if StatusOf(After(run).escrow.tracked, id).Claimable? {
      ClaimableEndsExactly(run, a, id);
    } else {
      PaymentEndures(run, a, id);
    }
  }

  // ---------------------------------------------------------------- a label that is wrong

  /** A refund whose reply got lost ends, on the next try, with the label Claimed although the refund key was paid. */
  lemma {:induction false} RetriedRefundIsLabelledClaimed(run: seq<Action>, id: Uuid, key: Key)
    requires id in After(run).escrow.tracked
    requires var s := After(run);
             && s.escrow.tracked[id].locktime <= s.now
             && Unspent(s.escrow, id)
             && var lock := LockHeld(s.escrow, id);
                IsOpen(lock, UnixNow(s)) && lock.refund == Some(key) && key != lock.recipient
    ensures var t := Step(Step(After(run), RefundPayment(id, Some(key), ReplyLost)),
                          RefundPayment(id, Some(key), Delivered));
            && t.replies == After(run).replies + [Err(Cdk), Err(TokenAlreadySpent)]
            && id in t.escrow.tracked && t.escrow.tracked[id].token in t.spends
               && t.escrow.tracked[id].token in t.escrow.mint
            && StatusOf(t.escrow.tracked, id).Claimed? && !NamesThePayee(t, id)
  {
    var s := After(run);
    EveryPaymentIsOk(run, id);
    var token := s.escrow.tracked[id].token;
    var lost := Step(s, RefundPayment(id, Some(key), ReplyLost));
    assert lost.escrow == s.escrow.(mint := s.escrow.mint[token := s.escrow.mint[token].(spent := true)]);
    assert lost.spends[token].key == key;
    assert lost.replies == s.replies + [Err(Cdk)];
    LostThenRelabelled(lost, id, key);
  }

  lemma LostThenRelabelled(s: System, id: Uuid, key: Key)
    requires id in s.escrow.tracked && s.escrow.tracked[id].locktime <= s.now
    requires PaymentOk(s.escrow.mint, id, s.escrow.tracked[id]) && StatusOf(s.escrow.tracked, id).Claimable?
    requires IsSpent(s.escrow.mint, s.escrow.tracked[id].token)
    ensures var t := Step(s, RefundPayment(id, Some(key), Delivered));
            && t.replies == s.replies + [Err(TokenAlreadySpent)]
            && t.spends == s.spends && t.escrow.mint == s.escrow.mint
            && id in t.escrow.tracked && t.escrow.tracked[id].token == s.escrow.tracked[id].token
            && StatusOf(t.escrow.tracked, id).Claimed?
  {
  }

  /** Five satoshis for key 1, refundable by key 2 from the tenth second on. */
  const Sample: CreateRequest :=
    CreateRequest(5, "bob", None, None, Some(Conditions(Some(1), Some(Some(2)), 10 * NANOS)))

  /** The payment is made, its locktime passes, and the sender refunds. */
  const ExpiredPayment: seq<Action> :=
    [LockFunds(Sample, 0, SupportsP2pk, false, true), TrackPayment(0, "p"), Tick(10 * NANOS)]

  lemma AfterPrefix(run: seq<Action>, n: nat)
    requires n < |run|
    ensures After(run[..n + 1]) == Step(After(run[..n]), run[n])
  {
    assert run[..n + 1][..n] == run[..n];
  }

  lemma ExpiredPaymentIsRefundable()
    ensures var s := After(ExpiredPayment);
            && "p" in s.escrow.tracked && s.now == 10 * NANOS && s.escrow.tracked["p"].locktime == 10 * NANOS
            && Unspent(s.escrow, "p") && LockHeld(s.escrow, "p") == Lock(1, Some(2), 10, false, 5)
  {
    var a := ExpiredPayment;
    AfterPrefix(a, 0);
    AfterPrefix(a, 1);
    AfterPrefix(a, 2);
    assert a[..0] == [] && a[..3] == a;
    assert UnixTime(10 * NANOS) == 10;
    assert Precheck(Sample, Circumstances(SupportsP2pk, false, true, 0, 0)) == None;
    assert After(a[..1]) == AfterLock(Initial, Sample, 0, false);
    assert Trim("bob") == "bob";
    assert BuildIntent(Sample, "p", 0).Ok?;
  }

  /** The input: a complete run whose one payment ends in Claimed although the refund key was paid. */
  lemma SenderPaidLabelClaimed()
    ensures var t := After(ExpiredPayment + [RefundPayment("p", Some(2), ReplyLost),
                                             RefundPayment("p", Some(2), Delivered)]);
            && "p" in t.escrow.tracked && t.escrow.tracked["p"].token in t.spends
               && t.escrow.tracked["p"].token in t.escrow.mint
            && StatusOf(t.escrow.tracked, "p").Claimed? && !NamesThePayee(t, "p")
  {
    var a := ExpiredPayment + [RefundPayment("p", Some(2), ReplyLost), RefundPayment("p", Some(2), Delivered)];
    ExpiredPaymentIsRefundable();
    RetriedRefundIsLabelledClaimed(ExpiredPayment, "p", 2);
    AfterPrefix(a, 3);
    AfterPrefix(a, 4);
    assert a[..3] == ExpiredPayment && a[..5] == a;
  }
}

/**
  The twelve-state payment lifecycle of crates/hanbova-core/src/payment_status.rs, its text form, and what every path
  through the transition graph keeps although the graph has retry cycles.
 */
module PaymentStatuses {
  import opened Wrappers
  import opened Text

  datatype PaymentStatus =
    | Created
    | Funding
    | Pending
    | Protected
    | Claimable
    | Claiming
    | Claimed
    | RefundAvailable
    | Refunding
    | Refunded
    | Expired
    | Failed

  predicate CanTransitionTo(from: PaymentStatus, to: PaymentStatus) {
    || from == to
    || match from
       case Created => to.Funding? || to.Pending? || to.Protected? || to.Claimable? || to.Failed?
       case Funding => to.Protected? || to.Claimable? || to.Pending? || to.Failed?
       case Pending => to.Protected? || to.Claimable? || to.Claimed? || to.Failed?
       case Protected =>
         to.Claimable? || to.Claiming? || to.RefundAvailable? || to.Expired? || to.Claimed? || to.Failed?
       case Claimable => to.Claiming? || to.Claimed? || to.RefundAvailable? || to.Expired? || to.Failed?
       case Claiming => to.Claimed? || to.Claimable? || to.RefundAvailable? || to.Refunded? || to.Failed?
       case RefundAvailable => to.Refunding? || to.Refunded? || to.Claiming? || to.Claimed? || to.Failed?
       case Expired => to.RefundAvailable? || to.Refunding? || to.Refunded? || to.Claimed? || to.Failed?
       case Refunding => to.Refunded? || to.Claimed? || to.RefundAvailable? || to.Failed?
       case Claimed => false
       case Refunded => false
       case Failed => false
  }

  datatype InvalidTransition = InvalidTransition(from: PaymentStatus, to: PaymentStatus)

  function TransitionTo(from: PaymentStatus, to: PaymentStatus): Result<PaymentStatus, InvalidTransition> {
    if CanTransitionTo(from, to) then Ok(to) else Err(InvalidTransition(from, to))
  }

  predicate IsTerminal(s: PaymentStatus) {
    s.Claimed? || s.Refunded? || s.Failed?
  }

  predicate IsActive(s: PaymentStatus) {
    || s.Created? || s.Funding? || s.Pending? || s.Protected? || s.Claimable? || s.Claiming?
    || s.RefundAvailable? || s.Refunding? || s.Expired?
  }

  /** The edges, read backwards: from which statuses each one can be entered, itself apart. */
  lemma PredecessorsExactly(from: PaymentStatus, to: PaymentStatus)
    ensures CanTransitionTo(from, to) <==>
            || from == to
            || match to
               case Created => false
               case Funding => from.Created?
               case Pending => from.Created? || from.Funding?
               case Protected => from.Created? || from.Funding? || from.Pending?
               case Claimable => from.Created? || from.Funding? || from.Pending? || from.Protected? || from.Claiming?
               case Claiming => from.Protected? || from.Claimable? || from.RefundAvailable?
               case RefundAvailable =>
                 || from.Protected? || from.Claimable? || from.Claiming? || from.Expired? || from.Refunding?
               case Refunding => from.RefundAvailable? || from.Expired?
               case Refunded => from.Claiming? || from.RefundAvailable? || from.Expired? || from.Refunding?
               case Expired => from.Protected? || from.Claimable?
               case Claimed =>
                 !from.Created? && !from.Funding? && !from.Refunded? && !from.Failed?
               case Failed => !from.Claimed? && !from.Refunded?
    ensures TransitionTo(from, to) == if CanTransitionTo(from, to) then Ok(to) else Err(InvalidTransition(from, to))
  {
  }

  /** Every status is either active or one of the three terminal ones. */
  lemma ActiveExactly(s: PaymentStatus)
    ensures IsActive(s) <==> !IsTerminal(s)
    ensures IsTerminal(s) <==> s in {Claimed, Refunded, Failed}
  {
  }

  // ---------------------------------------------------------------- text form

  function Display(s: PaymentStatus): string {
    match s
    case Created => "created"
    case Funding => "funding"
    case Pending => "pending"
    case Protected => "protected"
    case Claimable => "claimable"
    case Claiming => "claiming"
    case Claimed => "claimed"
    case RefundAvailable => "refund_available"
    case Refunding => "refunding"
    case Refunded => "refunded"
    case Expired => "expired"
    case Failed => "failed"
  }

  function Normal(text: string): string {
    seq(|text|, i requires 0 <= i < |text| => var c := LowerChar(text[i]); if c == '-' then '_' else c)
  }

  function FromName(name: string): Option<PaymentStatus> {
    if name == "created" then Some(Created)
    else if name == "funding" then Some(Funding)
    else if name == "pending" then Some(Pending)
    else if name == "protected" then Some(Protected)
    else if name == "claimable" then Some(Claimable)
    else if name == "claiming" then Some(Claiming)
    else if name == "claimed" then Some(Claimed)
    else if name == "refund_available" || name == "refundavailable" then Some(RefundAvailable)
    else if name == "refunding" then Some(Refunding)
    else if name == "refunded" then Some(Refunded)
    else if name == "expired" then Some(Expired)
    else if name == "failed" then Some(Failed)
    else None
  }

  function FromStr(text: string): Option<PaymentStatus> {
    FromName(Normal(text))
  }

  lemma DisplayIsNormal(s: PaymentStatus)
    ensures Normal(Display(s)) == Display(s)
  {
  }

  lemma FromNameExactly(name: string, s: PaymentStatus)
    ensures FromName(name) == Some(s) <==> name == Display(s) || (s.RefundAvailable? && name == "refundavailable")
  {
  }

  /**
    Parsing undoes printing, and accepts nothing else but case and dash variants and one spelling without underscore.
   */
  lemma FromStrInvertsDisplay(text: string, s: PaymentStatus)
    ensures FromStr(Display(s)) == Some(s)
    ensures FromStr(text) == Some(s) <==>
            Normal(text) == Display(s) || (s.RefundAvailable? && Normal(text) == "refundavailable")
  {
    DisplayIsNormal(s);
    FromNameExactly(Display(s), s);
    FromNameExactly(Normal(text), s);
  }

  /** Parsing ignores case and takes a dash for an underscore; it ignores nothing else. */
  lemma NormalExactly(text: string)
    ensures |Normal(text)| == |text|
    ensures forall i | 0 <= i < |text| :: Normal(text)[i] == if text[i] == '-' then '_' else LowerChar(text[i])
    ensures FromStr("Refund-Available") == FromStr("REFUNDAVAILABLE") == Some(RefundAvailable)
  {
    assert Normal("Refund-Available") == "refund_available";
    assert Normal("REFUNDAVAILABLE") == "refundavailable";
  }

  lemma DisplayIsInjective(s: PaymentStatus, t: PaymentStatus)
    requires Display(s) == Display(t)
    ensures s == t
  {
    FromStrInvertsDisplay(Display(s), s);
    FromStrInvertsDisplay(Display(t), t);
  }

  // ---------------------------------------------------------------- paths of the graph

  ghost predicate IsPath(path: seq<PaymentStatus>) {
    && path != []
    && forall i | 0 < i < |path| :: CanTransitionTo(path[i - 1], path[i])
  }

  /** Retries move between statuses of one rank only. */
  function Rank(s: PaymentStatus): nat {
    match s
    case Created => 0
    case Funding => 1
    case Pending => 2
    case Protected => 3
    case Claimable | Claiming | RefundAvailable | Refunding | Expired => 4
    case Claimed | Refunded | Failed => 5
  }

  lemma {:induction false} RankNeverFalls(path: seq<PaymentStatus>, i: nat, j: nat)
    requires IsPath(path) && i <= j < |path|
    ensures Rank(path[i]) <= Rank(path[j])
  {
    if i < j {
      RankNeverFalls(path, i, j - 1);
      assert CanTransitionTo(path[j - 1], path[j]);
    }
  }

  lemma {:induction false} TerminalIsFinal(path: seq<PaymentStatus>, i: nat, j: nat)
    requires IsPath(path) && i <= j < |path| && IsTerminal(path[i])
    ensures path[j] == path[i]
  {
    if i < j {
      TerminalIsFinal(path, i, j - 1);
      assert CanTransitionTo(path[j - 1], path[j]);
    }
  }

  predicate IsEscrowed(s: PaymentStatus) {
    s.Protected? || s.Claimable?
  }

  lemma {:induction false} WithoutEscrow(path: seq<PaymentStatus>, j: nat)
    requires IsPath(path) && j < |path| && Rank(path[0]) <= Rank(Pending)
    requires forall i | 0 <= i <= j :: !IsEscrowed(path[i])
    ensures Rank(path[j]) <= Rank(Pending) || path[j].Claimed? || path[j].Failed?
  {
    if j > 0 {
      WithoutEscrow(path, j - 1);
      assert CanTransitionTo(path[j - 1], path[j]);
    }
  }

  /**
    No refund of what was never locked: a run that starts before the escrow passes through it on its way to Refunded.
   */
  lemma RefundedPassesThroughEscrow(path: seq<PaymentStatus>, j: nat)
    requires IsPath(path) && j < |path| && Rank(path[0]) <= Rank(Pending) && path[j].Refunded?
    ensures exists i | 0 <= i < j :: path[i].Protected? || path[i].Claimable?
  {
    if forall i | 0 <= i < j :: !IsEscrowed(path[i]) {
      WithoutEscrow(path, j);
    }
    assert forall i | 0 <= i < j && IsEscrowed(path[i]) :: path[i].Protected? || path[i].Claimable?;
  }

  /** A claim that bypassed the escrow was stepped to from Pending, the instant-payment edge. */
  lemma {:induction false} ClaimedWithoutEscrowComesFromPending(path: seq<PaymentStatus>, j: nat)
    requires IsPath(path) && j < |path| && Rank(path[0]) <= Rank(Pending) && path[j].Claimed?
    requires forall i | 0 <= i < j :: !IsEscrowed(path[i])
    ensures exists k | 0 < k <= j :: path[k - 1].Pending? && path[k].Claimed?
  {
    assert j > 0;
    WithoutEscrow(path, j - 1);
    assert CanTransitionTo(path[j - 1], path[j]);
    if path[j - 1].Claimed? {
      ClaimedWithoutEscrowComesFromPending(path, j - 1);
    } else {
      assert path[j - 1].Pending? && path[j].Claimed?;
    }
  }

  // ---------------------------------------------------------------- reachability, in closed form

  /** Some path leads from `from` to `to`. */
  ghost predicate Reaches(from: PaymentStatus, to: PaymentStatus) {
    exists path: seq<PaymentStatus> :: IsPath(path) && path[0] == from && path[|path| - 1] == to
  }

  /** The longest walk of the graph: up to Claimable, then round the five statuses of rank 4. */
  function Position(s: PaymentStatus): nat {
    match s
    case Created => 0
    case Funding => 1
    case Pending => 2
    case Protected => 3
    case Claimable => 4
    case Expired => 5
    case Refunding => 6
    case RefundAvailable => 7
    case Claiming => 8
    case Claimed | Refunded | Failed => 9
  }

  function Onward(s: PaymentStatus): (next: PaymentStatus)
    ensures CanTransitionTo(s, next)
  {
    match s
    case Created => Funding
    case Funding => Pending
    case Pending => Protected
    case Protected => Claimable
    case Claimable => Expired
    case Expired => Refunding
    case Refunding => RefundAvailable
    case RefundAvailable => Claiming
    case Claiming => Claimable
    case _ => s
  }

  lemma {:induction false} WalkReaches(from: PaymentStatus, to: PaymentStatus) returns (path: seq<PaymentStatus>)
    requires IsActive(from) && IsActive(to)
    requires from == to || Rank(from) < Rank(to) || Rank(from) == Rank(to) == 4
    ensures IsPath(path) && path[0] == from && path[|path| - 1] == to
    decreases if Position(from) <= Position(to) then Position(to) - Position(from)
      else 5 + Position(to) - Position(from)
  {
    if from == to {
      path := [from];
    } else {
      var rest := WalkReaches(Onward(from), to);
      path := [from] + rest;
      forall i | 0 < i < |path|
        ensures CanTransitionTo(path[i - 1], path[i])
      {
        assert i > 1 ==> path[i - 1] == rest[i - 2] && path[i] == rest[i - 1];
      }
    }
  }

  /**
    The reachability relation of the graph: upwards in rank everything, within rank 4 everything, otherwise nothing.
    Hence no active status is a dead end, and none can be left for good by a retry.
   */
  lemma ReachesExactly(from: PaymentStatus, to: PaymentStatus)
    ensures Reaches(from, to) <==> from == to || Rank(from) < Rank(to) || Rank(from) == Rank(to) == 4
  {
    if Reaches(from, to) {
      var path :| IsPath(path) && path[0] == from && path[|path| - 1] == to;
      RankNeverFalls(path, 0, |path| - 1);
      if IsTerminal(from) {
        TerminalIsFinal(path, 0, |path| - 1);
      }
    }
    if from == to {
      assert IsPath([from]);
    }
    if from != to && (Rank(from) < Rank(to) || Rank(from) == Rank(to) == 4) {
      var stop := if IsTerminal(to) then Claiming else to;
      var path := WalkReaches(from, stop);
      if IsTerminal(to) {
        path := path + [to];
      }
      assert IsPath(path) && path[0] == from && path[|path| - 1] == to;
    }
  }
}

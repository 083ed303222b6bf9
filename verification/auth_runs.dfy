/**
  Logins, refreshes, logouts and password resets of any number of callers, interleaved between any two store
  operations of services/api/src/auth/service.rs.

  A chain is one login and all the tokens rotated out of it.  `chainOf`, `sessions`, `replies` and the log are history
  variables: no branch depends on them; steps read them only to carry the chain along.
 */
module AuthRuns {
  import opened Wrappers
  import opened PaymentIntents
  import opened AuthStore
  import opened AuthService

  type Chain = nat

  /** A stored password; `version` counts the passwords the user has had and is history. */
  datatype Credential = Credential(hash: PasswordHash, version: nat)

  /** Where a caller stands; `chain` is carried along as history. */
  datatype Call =
    | RegisterChecked(userId: UserId, password: string)
    | LoginStarted(userId: UserId, password: string)
    | LoginRead(userId: UserId, password: string, read: Credential)
    | RefreshStarted(h: TokenHash)
    | TokenRevoked(userId: UserId, chain: Chain)
    | Issuing(userId: UserId, chain: Chain, expiresAt: Time)
    | LogoutStarted(userId: UserId)
    | ForgotRead(userId: UserId)
    | ResetStarted(h: TokenHash, newPassword: string)
    | ResetConsumed(userId: UserId, newPassword: string)
    | PasswordWritten(userId: UserId, version: nat)

  datatype Reply = Issued(token: nat) | Refused(error: AuthError) | Completed

  datatype Event =
    | Stored(h: TokenHash, userId: UserId)
    | RevokedAll(userId: UserId)
    | Redeemed(h: TokenHash, userId: UserId, at: Time)
    | ResetRedeemed(h: TokenHash, userId: UserId, at: Time)

  /** Who opened a chain, and which version of the password that login or registration went by. */
  datatype Session = Session(userId: UserId, version: nat)

  datatype System = System(
    now: Time,
    users: map<UserId, Credential>,
    refresh: RefreshTokens,
    reset: ResetTokens,
    calls: map<nat, Call>,
    chainOf: map<TokenHash, Chain>,
    sessions: seq<Session>,
    replies: map<nat, Reply>,
    log: seq<Event>)

  datatype Action =
    | Tick(elapsed: nat)
    | Begin(call: nat, start: Call)
    | Advance(call: nat, newToken: nat)

  // ---------------------------------------------------------------- steps

  function Goto(s: System, c: nat, call: Call): System {
    s.(calls := s.calls[c := call])
  }

  function Finish(s: System, c: nat, reply: Reply): System {
    s.(calls := s.calls - {c}, replies := s.replies[c := reply])
  }

  predicate IsStart(call: Call) {
    || call.RegisterChecked? || call.LoginStarted? || call.RefreshStarted? || call.LogoutStarted? || call.ForgotRead?
    || call.ResetStarted?
  }

  /** A registration or verified login opens a chain; from here on the caller holds it. */
  function OpenChain(s: System, c: nat, userId: UserId, version: nat): System {
    Goto(s, c, Issuing(userId, |s.sessions|, s.now + REFRESH_LIFETIME))
    .(sessions := s.sessions + [Session(userId, version)])
  }

  function WithUser(s: System, userId: UserId, credential: Credential): System {
    s.(users := s.users[userId := credential])
  }

  function RegisterStep(s: System, c: nat, userId: UserId, password: string): System {
    if userId in s.users then s
    else OpenChain(WithUser(s, userId, Credential(Argon2(password), 0)), c, userId, 0)
  }

  /** The user as stored at this moment, password included, is what the login will be checked against. */
  function LookupStep(s: System, c: nat, userId: UserId, password: string): System {
    if userId in s.users then Goto(s, c, LoginRead(userId, password, s.users[userId]))
    else Finish(s, c, Refused(BadRequest))
  }

  predicate Verifies(call: Call)
    requires call.LoginRead?
  {
    call.read.hash == Argon2(call.password)
  }

  function VerifyStep(s: System, c: nat, call: Call): System
    requires call.LoginRead?
  {
    if Verifies(call) then OpenChain(s, c, call.userId, call.read.version) else Finish(s, c, Refused(BadRequest))
  }

  function RedeemStep(s: System, c: nat, h: TokenHash): System {
    var (tokens, owner) := Redeem(s.refresh, h, s.now);
    match owner
    case None => Finish(s, c, Refused(BadRequest))
    case Some(userId) =>
      Goto(s, c, TokenRevoked(userId, if h in s.chainOf then s.chainOf[h] else 0))
      .(refresh := tokens, log := s.log + [Redeemed(h, userId, s.now)])
  }

  function IssueStep(s: System, c: nat, call: Call, newToken: nat): System
    requires call.Issuing?
  {
    var h := Sha256(newToken);
    if h in s.refresh then s
    else
      Finish(s, c, Issued(newToken))
      .(refresh := s.refresh[h := RefreshRecord(call.userId, call.expiresAt, None, s.now)],
        chainOf := s.chainOf[h := call.chain],
        log := s.log + [Stored(h, call.userId)])
  }

  function RevokeStep(s: System, c: nat, userId: UserId): System {
    Finish(s, c, Completed).(refresh := RevokeAll(s.refresh, userId, s.now), log := s.log + [RevokedAll(userId)])
  }

  /** The length of the new password is checked before the token is touched. */
  function ConsumeStep(s: System, c: nat, h: TokenHash, newPassword: string): System {
    if |newPassword| < 8 then Finish(s, c, Refused(BadRequest))
    else
      var (tokens, owner) := Consume(s.reset, h, s.now);
      match owner
      case None => Finish(s, c, Refused(BadRequest))
      case Some(userId) =>
        Goto(s, c, ResetConsumed(userId, newPassword))
        .(reset := tokens, log := s.log + [ResetRedeemed(h, userId, s.now)])
  }

  function WriteStep(s: System, c: nat, userId: UserId, newPassword: string): System {
    if userId !in s.users then Goto(s, c, PasswordWritten(userId, 0))
    else
      var version := s.users[userId].version + 1;
      s.(users := s.users[userId := Credential(Argon2(newPassword), version)],
         calls := s.calls[c := PasswordWritten(userId, version)])
  }

  function StoreResetStep(s: System, c: nat, userId: UserId, newToken: nat): System {
    var h := Sha256(newToken);
    if h in s.reset then s
    else Finish(s, c, Completed).(reset := s.reset[h := ResetRecord(userId, s.now + RESET_LIFETIME, None, s.now)])
  }

  function AdvanceCall(s: System, c: nat, newToken: nat): System
    requires c in s.calls
  {
    match s.calls[c]
    case RegisterChecked(userId, password) => RegisterStep(s, c, userId, password)
    case LoginStarted(userId, password) => LookupStep(s, c, userId, password)
    case LoginRead(_, _, _) => VerifyStep(s, c, s.calls[c])
    case RefreshStarted(h) => RedeemStep(s, c, h)
    case TokenRevoked(userId, chain) =>
      if userId in s.users then Goto(s, c, Issuing(userId, chain, s.now + REFRESH_LIFETIME))
      else Finish(s, c, Refused(NotFound))
    case Issuing(_, _, _) => IssueStep(s, c, s.calls[c], newToken)
    case LogoutStarted(userId) => RevokeStep(s, c, userId)
    case ForgotRead(userId) => StoreResetStep(s, c, userId, newToken)
    case ResetStarted(h, newPassword) => ConsumeStep(s, c, h, newPassword)
    case ResetConsumed(userId, newPassword) => WriteStep(s, c, userId, newPassword)
    case PasswordWritten(userId, _) => RevokeStep(s, c, userId)
  }

  function Step(s: System, a: Action): System {
    match a
    case Tick(elapsed) => s.(now := s.now + elapsed)
    case Begin(c, start) => if c in s.calls || !IsStart(start) then s else Goto(s, c, start)
    case Advance(c, newToken) => if c in s.calls then AdvanceCall(s, c, newToken) else s
  }

  const Empty: System := System(0, map[], map[], map[], map[], map[], [], map[], [])

  function After(schedule: seq<Action>): System {
    if schedule == [] then Empty else Step(After(schedule[..|schedule| - 1]), schedule[|schedule| - 1])
  }

  // ---------------------------------------------------------------- calls that nobody interrupts

  /** A call that begins and takes three steps with nothing in between. */
  function LeftAlone(s: System, c: nat, start: Call, newToken: nat): System {
    Step(Step(Step(Step(s, Begin(c, start)), Advance(c, newToken)), Advance(c, newToken)), Advance(c, newToken))
  }

  function ReplyOf(r: Result<nat, AuthError>): Reply {
    match r
    case Ok(token) => Issued(token)
    case Err(error) => Refused(error)
  }

  lemma RestOfRefresh(s: System, c: nat, newToken: nat)
    requires c in s.calls && s.calls[c].TokenRevoked? && Sha256(newToken) !in s.refresh
    ensures var t := Step(Step(s, Advance(c, newToken)), Advance(c, newToken));
            var (userId, h) := (s.calls[c].userId, Sha256(newToken));
            && c !in t.calls && c in t.replies
            && t.replies[c] == (if userId in s.users then Issued(newToken) else Refused(NotFound))
            && t.refresh == if userId in s.users then
                 s.refresh[h := RefreshRecord(userId, s.now + REFRESH_LIFETIME, None, s.now)]
                            else s.refresh
  {
    var s1 := Step(s, Advance(c, newToken));
    if s.calls[c].userId in s.users {
      assert s1.calls[c].Issuing?;
    } else {
      assert c !in s1.calls;
    }
  }

  /** Left alone, a refresh does to the tokens what `Refreshed` says, and answers so. */
  lemma UninterruptedRefresh(s: System, c: nat, token: nat, newToken: nat, users: Users)
    requires c !in s.calls && users.Keys == s.users.Keys && Sha256(newToken) !in s.refresh
    ensures var t := LeftAlone(s, c, RefreshStarted(Sha256(token)), newToken);
            var (refresh, r) := Refreshed(s.refresh, users, token, newToken, s.now);
            t.refresh == refresh && c !in t.calls && c in t.replies && t.replies[c] == ReplyOf(r)
  {
    var s1 := Step(s, Begin(c, RefreshStarted(Sha256(token))));
    var s2 := Step(s1, Advance(c, newToken));
    if Redeem(s.refresh, Sha256(token), s.now).1.None? {
      assert s2 == Finish(s1, c, Refused(BadRequest));
    } else {
      assert s2.calls[c].TokenRevoked?;
      RestOfRefresh(s2, c, newToken);
    }
  }

  /** Left alone, a login succeeds exactly with the stored password and then stores one token. */
  lemma UninterruptedLogin(s: System, c: nat, userId: UserId, password: string, newToken: nat)
    requires c !in s.calls && Sha256(newToken) !in s.refresh
    ensures var t := LeftAlone(s, c, LoginStarted(userId, password), newToken);
            var ok := userId in s.users && s.users[userId].hash == Argon2(password);
            && c !in t.calls && c in t.replies
            && t.replies[c] == (if ok then Issued(newToken) else Refused(BadRequest))
            && t.refresh ==
               if ok then
                 s.refresh[Sha256(newToken) := RefreshRecord(userId, s.now + 2_592_000_000_000_000, None, s.now)]
               else s.refresh
  {
    var s1 := Step(s, Begin(c, LoginStarted(userId, password)));
    var s2 := Step(s1, Advance(c, newToken));
    if userId in s.users {
      assert s2.calls[c] == LoginRead(userId, password, s.users[userId]);
      if s.users[userId].hash == Argon2(password) {
        assert Step(s2, Advance(c, newToken)).calls[c].Issuing?;
      }
    }
  }

  /** Left alone, a request for a reset token stores one that is good for an hour. */
  lemma UninterruptedForgot(s: System, c: nat, userId: UserId, newToken: nat)
    requires c !in s.calls && Sha256(newToken) !in s.reset
    ensures var t := Step(Step(s, Begin(c, ForgotRead(userId))), Advance(c, newToken));
            && t.reset == s.reset[Sha256(newToken) := ResetRecord(userId, s.now + 3_600_000_000_000, None, s.now)]
            && t.refresh == s.refresh && t.users == s.users
            && c !in t.calls && c in t.replies && t.replies[c] == Completed
  {
  }

  lemma RestOfReset(s: System, c: nat)
    requires c in s.calls && s.calls[c].ResetConsumed?
    ensures var t := Step(Step(s, Advance(c, 0)), Advance(c, 0));
            var ResetConsumed(userId, newPassword) := s.calls[c];
            && c !in t.calls && c in t.replies && t.replies[c] == Completed
            && t.reset == s.reset
            && t.refresh == RevokeAll(s.refresh, userId, s.now)
            && t.users == if userId !in s.users then s.users
                          else s.users[userId := Credential(Argon2(newPassword), s.users[userId].version + 1)]
  {
    var s1 := Step(s, Advance(c, 0));
    assert s1.calls[c].PasswordWritten? && s1.calls[c].userId == s.calls[c].userId;
  }

  /**
    Left alone, a password reset consumes its token, writes the password and revokes all the owner's refresh tokens,
    or is refused and changes nothing.
   */
  lemma UninterruptedReset(s: System, c: nat, h: TokenHash, newPassword: string)
    requires c !in s.calls
    ensures var t := LeftAlone(s, c, ResetStarted(h, newPassword), 0);
            var (consumed, owner) := Consume(s.reset, h, s.now);
            && c !in t.calls && c in t.replies
            && if |newPassword| < 8 || owner.None? then
                 t.replies[c] == Refused(BadRequest) && t.reset == s.reset && t.refresh == s.refresh
                   && t.users == s.users
               else
                 && t.replies[c] == Completed
                 && t.reset == consumed
                 && t.refresh == RevokeAll(s.refresh, owner.value, s.now)
                 && t.users == if owner.value !in s.users then s.users
                               else s.users[owner.value :=
                                      Credential(Argon2(newPassword), s.users[owner.value].version + 1)]
  {
    var s1 := Step(s, Begin(c, ResetStarted(h, newPassword)));
    var s2 := Step(s1, Advance(c, 0));
    var owner := Consume(s.reset, h, s.now).1;
    if |newPassword| < 8 || owner.None? {
      assert s2 == Finish(s1, c, Refused(BadRequest));
    } else {
      assert s2.calls[c] == ResetConsumed(owner.value, newPassword);
      RestOfReset(s2, c);
    }
  }

  // ---------------------------------------------------------------- who holds a chain

  /** A token that was neither redeemed nor revoked; expiry only ever takes more away. */
  predicate IsUnrevoked(s: System, h: TokenHash) {
    h in s.refresh && s.refresh[h].revokedAt.None?
  }

  predicate InFlight(s: System, c: nat) {
    c in s.calls && (s.calls[c].TokenRevoked? || s.calls[c].Issuing?)
  }

  datatype Holder = Token(h: TokenHash) | Caller(c: nat)

  ghost predicate Holds(s: System, holder: Holder, chain: Chain) {
    match holder
    case Token(h) => IsUnrevoked(s, h) && h in s.chainOf && s.chainOf[h] == chain
    case Caller(c) => InFlight(s, c) && s.calls[c].chain == chain
  }

  // ---------------------------------------------------------------- the invariant

  ghost predicate TokenOk(s: System, h: TokenHash) {
    && (h in s.refresh <==> h in s.chainOf)
    && (h in s.refresh ==> s.chainOf[h] < |s.sessions| && s.sessions[s.chainOf[h]].userId == s.refresh[h].userId)
  }

  ghost predicate CallOk(s: System, c: nat) {
    InFlight(s, c) ==> s.calls[c].chain < |s.sessions| && s.sessions[s.calls[c].chain].userId == s.calls[c].userId
  }

  ghost predicate OneHolder(s: System) {
    forall a: Holder, b: Holder, chain: Chain :: Holds(s, a, chain) && Holds(s, b, chain) ==> a == b
  }

  /** What the log says about the stores. */
  ghost predicate EventOk(s: System, i: nat)
    requires i < |s.log|
  {
    match s.log[i]
    case Stored(h, userId) => h in s.refresh && s.refresh[h].userId == userId
    case Redeemed(h, userId, at) =>
      h in s.refresh && s.refresh[h].userId == userId && s.refresh[h].revokedAt == Some(at)
        && at < s.refresh[h].expiresAt
    case ResetRedeemed(h, userId, at) =>
      h in s.reset && s.reset[h].userId == userId && s.reset[h].usedAt == Some(at) && at < s.reset[h].expiresAt
    case RevokedAll(userId) =>
      forall j | 0 <= j < i && s.log[j].Stored? && s.log[j].userId == userId :: !IsUnrevoked(s, s.log[j].h)
  }

  /** No token is redeemed twice, and none that was stored before a revocation of its user is redeemed after it. */
  ghost predicate RedemptionOk(s: System, k: nat)
    requires k < |s.log|
  {
    && (s.log[k].Redeemed? ==>
          && (forall i | 0 <= i < k && s.log[i].Redeemed? :: s.log[i].h != s.log[k].h)
          && (forall i, j | 0 <= i < j < k && s.log[i] == Stored(s.log[k].h, s.log[k].userId) ::
                s.log[j] != RevokedAll(s.log[k].userId)))
    && (s.log[k].ResetRedeemed? ==> forall i | 0 <= i < k && s.log[i].ResetRedeemed? :: s.log[i].h != s.log[k].h)
  }

  ghost predicate Inv(s: System) {
    && (forall h: TokenHash :: TokenOk(s, h))
    && (forall c: nat :: CallOk(s, c))
    && OneHolder(s)
    && (forall i | 0 <= i < |s.log| :: EventOk(s, i))
    && (forall k | 0 <= k < |s.log| :: RedemptionOk(s, k))
  }

  // ---------------------------------------------------------------- what every step keeps

  /** Records stay; a revocation or a use, once written, never changes. */
  ghost predicate Grows(s: System, t: System) {
    && (forall h | h in s.refresh ::
          && h in t.refresh && t.refresh[h].userId == s.refresh[h].userId
             && t.refresh[h].expiresAt == s.refresh[h].expiresAt
          && (s.refresh[h].revokedAt.Some? ==> t.refresh[h].revokedAt == s.refresh[h].revokedAt))
    && (forall h | h in s.reset ::
          && h in t.reset && t.reset[h].userId == s.reset[h].userId && t.reset[h].expiresAt == s.reset[h].expiresAt
          && (s.reset[h].usedAt.Some? ==> t.reset[h].usedAt == s.reset[h].usedAt))
    && (forall h | h in s.chainOf :: h in t.chainOf && t.chainOf[h] == s.chainOf[h])
    && s.sessions <= t.sessions
  }

  /** The three structural parts of the invariant. */
  ghost predicate StoreOk(s: System) {
    && (forall h: TokenHash :: TokenOk(s, h))
    && (forall c: nat :: CallOk(s, c))
    && OneHolder(s)
  }

  /** The two parts about the log. */
  ghost predicate LogOk(s: System) {
    && (forall i | 0 <= i < |s.log| :: EventOk(s, i))
    && (forall k | 0 <= k < |s.log| :: RedemptionOk(s, k))
  }

  lemma EventStaysOk(s: System, t: System, i: nat)
    requires i < |s.log| && s.log <= t.log && Grows(s, t)
    requires forall j | 0 <= j <= i :: EventOk(s, j)
    ensures EventOk(t, i)
  {
    assert t.log[i] == s.log[i];
    assert EventOk(s, i);
    if s.log[i].RevokedAll? {
      forall j | 0 <= j < i && t.log[j].Stored? && t.log[j].userId == t.log[i].userId
        ensures !IsUnrevoked(t, t.log[j].h)
      {
        assert t.log[j] == s.log[j];
        assert EventOk(s, j);
      }
    }
  }

  lemma RedemptionStaysOk(s: System, t: System, k: nat)
    requires k < |s.log| && s.log <= t.log && RedemptionOk(s, k)
    ensures RedemptionOk(t, k)
  {
    assert forall i | 0 <= i <= k :: t.log[i] == s.log[i];
  }

  lemma LogStaysOk(s: System, t: System, added: seq<Event>)
    requires LogOk(s) && Grows(s, t) && t.log == s.log + added && |added| <= 1
    requires added != [] ==> EventOk(t, |s.log|) && RedemptionOk(t, |s.log|)
    ensures LogOk(t)
  {
    forall i | 0 <= i < |t.log|
      ensures EventOk(t, i) && RedemptionOk(t, i)
    {
      if i < |s.log| {
        EventStaysOk(s, t, i);
        RedemptionStaysOk(s, t, i);
      }
    }
  }

  /** A step that adds no token and lets nobody hold more than before. */
  lemma HoldersShrink(s: System, t: System)
    requires OneHolder(s)
    requires forall x: Holder, chain: Chain :: Holds(t, x, chain) ==> Holds(s, x, chain)
    ensures OneHolder(t)
  {
  }

  /** A step that leaves the tokens alone and moves one caller without giving it a chain it did not hold. */
  lemma QuietStep(s: System, t: System, c: int)
    requires Inv(s) && t.refresh == s.refresh && t.chainOf == s.chainOf && t.sessions == s.sessions && t.log == s.log
    requires Grows(s, t)
    requires forall d: nat | d != c :: d in t.calls <==> d in s.calls
    requires forall d: nat | d != c && d in s.calls :: t.calls[d] == s.calls[d]
    requires c >= 0 && InFlight(t, c) ==>
               InFlight(s, c) && t.calls[c].chain == s.calls[c].chain && t.calls[c].userId == s.calls[c].userId
    ensures Inv(t)
  {
    forall h: TokenHash
      ensures TokenOk(t, h)
    {
      assert TokenOk(s, h);
    }
    forall d: nat
      ensures CallOk(t, d)
    {
      assert CallOk(s, d);
    }
    forall x: Holder, chain: Chain | Holds(t, x, chain)
      ensures Holds(s, x, chain)
    {
    }
    HoldersShrink(s, t);
    LogStaysOk(s, t, []);
  }

  lemma OpenChainKeepsInv(s: System, c: nat, userId: UserId, version: nat)
    requires Inv(s) && c in s.calls && !InFlight(s, c)
    ensures Inv(OpenChain(s, c, userId, version)) && Grows(s, OpenChain(s, c, userId, version))
  {
    var t := OpenChain(s, c, userId, version);
    forall h: TokenHash
      ensures TokenOk(t, h)
    {
      assert TokenOk(s, h);
    }
    forall d: nat
      ensures CallOk(t, d)
    {
      assert CallOk(s, d);
    }
    forall x: Holder, chain: Chain | Holds(t, x, chain)
      ensures if x == Caller(c) then chain == |s.sessions| else chain < |s.sessions| && Holds(s, x, chain)
    {
      match x {
        case Token(h) => assert TokenOk(s, h);
        case Caller(d) => assert CallOk(s, d);
      }
    }
    LogStaysOk(s, t, []);
  }

  lemma RedeemedIsNew(s: System, t: System, h: TokenHash)
    requires LogOk(s) && IsRedeemable(s.refresh, h, s.now)
    requires t.log == s.log + [Redeemed(h, s.refresh[h].userId, s.now)]
    ensures RedemptionOk(t, |s.log|)
  {
    var k := |s.log|;
    forall i | 0 <= i < k && t.log[i].Redeemed?
      ensures t.log[i].h != h
    {
      assert EventOk(s, i);
    }
    forall i, j | 0 <= i < j < k && t.log[i] == Stored(h, s.refresh[h].userId)
      ensures t.log[j] != RevokedAll(s.refresh[h].userId)
    {
      assert EventOk(s, j);
      assert s.log[i] == t.log[i] && s.log[j] == t.log[j];
    }
  }

  lemma RedeemTokens(s: System, t: System, h: TokenHash)
    requires (forall g: TokenHash :: TokenOk(s, g)) && IsUnrevoked(s, h)
    requires t.refresh == s.refresh[h := s.refresh[h].(revokedAt := Some(s.now))]
    requires t.chainOf == s.chainOf && t.sessions == s.sessions && t.reset == s.reset
    ensures forall g: TokenHash :: TokenOk(t, g)
    ensures Grows(s, t)
  {
    forall g: TokenHash
      ensures TokenOk(t, g)
    {
      assert TokenOk(s, g);
    }
  }

  /** Redeeming passes the chain from the token to the caller. */
  lemma RedeemHolders(s: System, c: nat, h: TokenHash)
    requires StoreOk(s) && c in s.calls && !InFlight(s, c) && IsRedeemable(s.refresh, h, s.now)
    ensures StoreOk(RedeemStep(s, c, h)) && Grows(s, RedeemStep(s, c, h))
  {
    var t := RedeemStep(s, c, h);
    assert TokenOk(s, h);
    var chain := s.chainOf[h];
    assert t.calls == s.calls[c := TokenRevoked(s.refresh[h].userId, chain)];
    RedeemTokens(s, t, h);
    forall d: nat
      ensures CallOk(t, d)
    {
      assert CallOk(s, d);
    }
    assert Holds(s, Token(h), chain);
    forall x: Holder, ch: Chain | Holds(t, x, ch)
      ensures if x == Caller(c) then ch == chain else ch != chain && Holds(s, x, ch)
    {
      if x != Caller(c) {
        assert Holds(s, x, ch);
      }
    }
  }

  lemma RedeemKeepsInv(s: System, c: nat, h: TokenHash)
    requires Inv(s) && c in s.calls && !InFlight(s, c)
    ensures Inv(RedeemStep(s, c, h)) && Grows(s, RedeemStep(s, c, h))
  {
    var t := RedeemStep(s, c, h);
    if IsRedeemable(s.refresh, h, s.now) {
      RedeemHolders(s, c, h);
      RedeemedIsNew(s, t, h);
      LogStaysOk(s, t, [Redeemed(h, s.refresh[h].userId, s.now)]);
    } else {
      QuietStep(s, t, c);
    }
  }

  /** Issuing passes the chain from the caller to the new token. */
  lemma IssueHolders(s: System, c: nat, newToken: nat)
    requires StoreOk(s) && c in s.calls && s.calls[c].Issuing? && Sha256(newToken) !in s.refresh
    ensures StoreOk(IssueStep(s, c, s.calls[c], newToken)) && Grows(s, IssueStep(s, c, s.calls[c], newToken))
  {
    var t := IssueStep(s, c, s.calls[c], newToken);
    var issued, chain := Sha256(newToken), s.calls[c].chain;
    assert CallOk(s, c);
    assert TokenOk(s, issued);
    forall g: TokenHash
      ensures TokenOk(t, g)
    {
      assert TokenOk(s, g);
    }
    forall d: nat
      ensures CallOk(t, d)
    {
      assert CallOk(s, d);
    }
    assert Holds(s, Caller(c), chain);
    forall x: Holder, ch: Chain | Holds(t, x, ch)
      ensures if x == Token(issued) then ch == chain else ch != chain && Holds(s, x, ch)
    {
      if x != Token(issued) {
        assert Holds(s, x, ch);
      }
    }
  }

  lemma IssueKeepsInv(s: System, c: nat, newToken: nat)
    requires Inv(s) && c in s.calls && s.calls[c].Issuing?
    ensures Inv(IssueStep(s, c, s.calls[c], newToken)) && Grows(s, IssueStep(s, c, s.calls[c], newToken))
  {
    if Sha256(newToken) !in s.refresh {
      var t := IssueStep(s, c, s.calls[c], newToken);
      IssueHolders(s, c, newToken);
      LogStaysOk(s, t, [Stored(Sha256(newToken), s.calls[c].userId)]);
    }
  }

  lemma RevokeHolders(s: System, c: nat, userId: UserId)
    requires StoreOk(s) && c in s.calls
    ensures StoreOk(RevokeStep(s, c, userId)) && Grows(s, RevokeStep(s, c, userId))
  {
    var t := RevokeStep(s, c, userId);
    forall g: TokenHash
      ensures TokenOk(t, g)
    {
      assert TokenOk(s, g);
    }
    forall d: nat
      ensures CallOk(t, d)
    {
      assert CallOk(s, d);
    }
    forall x: Holder, chain: Chain | Holds(t, x, chain)
      ensures Holds(s, x, chain)
    {
    }
    HoldersShrink(s, t);
  }

  lemma RevokeKeepsInv(s: System, c: nat, userId: UserId)
    requires Inv(s) && c in s.calls
    ensures Inv(RevokeStep(s, c, userId)) && Grows(s, RevokeStep(s, c, userId))
  {
    var t := RevokeStep(s, c, userId);
    RevokeHolders(s, c, userId);
    forall j | 0 <= j < |s.log| && t.log[j].Stored? && t.log[j].userId == userId
      ensures !IsUnrevoked(t, t.log[j].h)
    {
      assert EventOk(s, j);
      assert t.log[j] == s.log[j];
    }
    LogStaysOk(s, t, [RevokedAll(userId)]);
  }

  lemma RegisterKeepsInv(s: System, c: nat, userId: UserId, password: string)
    requires Inv(s) && c in s.calls && !InFlight(s, c)
    ensures Inv(RegisterStep(s, c, userId, password)) && Grows(s, RegisterStep(s, c, userId, password))
  {
    if userId !in s.users {
      var named := WithUser(s, userId, Credential(Argon2(password), 0));
      QuietStep(s, named, c);
      OpenChainKeepsInv(named, c, userId, 0);
    }
  }

  lemma VerifyKeepsInv(s: System, c: nat)
    requires Inv(s) && c in s.calls && s.calls[c].LoginRead?
    ensures Inv(VerifyStep(s, c, s.calls[c])) && Grows(s, VerifyStep(s, c, s.calls[c]))
  {
    if Verifies(s.calls[c]) {
      OpenChainKeepsInv(s, c, s.calls[c].userId, s.calls[c].read.version);
    } else {
      QuietStep(s, Finish(s, c, Refused(BadRequest)), c);
    }
  }

  lemma ConsumingKeepsInv(s: System, t: System, c: nat, h: TokenHash, userId: UserId)
    requires Inv(s) && c in s.calls && !InFlight(s, c) && Grows(s, t)
    requires Consume(s.reset, h, s.now).1 == Some(userId)
    requires t == s.(calls := t.calls, reset := t.reset, log := s.log + [ResetRedeemed(h, userId, s.now)])
    requires EventOk(t, |s.log|) && c in t.calls && !InFlight(t, c) && t.calls == s.calls[c := t.calls[c]]
    ensures Inv(t)
  {
    var mid := t.(log := s.log);
    QuietStep(s, mid, c);
    ResetRedeemedIsNew(s, t, h);
    LogStaysOk(s, t, [ResetRedeemed(h, userId, s.now)]);
    StoreIgnoresLog(mid, t);
  }

  lemma ConsumeKeepsInv(s: System, c: nat, h: TokenHash, newPassword: string)
    requires Inv(s) && c in s.calls && !InFlight(s, c)
    ensures Inv(ConsumeStep(s, c, h, newPassword)) && Grows(s, ConsumeStep(s, c, h, newPassword))
  {
    var t := ConsumeStep(s, c, h, newPassword);
    var owner := Consume(s.reset, h, s.now).1;
    if |newPassword| >= 8 && owner.Some? {
      assert t.calls == s.calls[c := ResetConsumed(owner.value, newPassword)];
      ConsumingKeepsInv(s, t, c, h, owner.value);
    } else {
      QuietStep(s, Finish(s, c, Refused(BadRequest)), c);
    }
  }

  lemma ResetRedeemedIsNew(s: System, t: System, h: TokenHash)
    requires LogOk(s) && Consume(s.reset, h, s.now).1.Some?
    requires t.log == s.log + [ResetRedeemed(h, s.reset[h].userId, s.now)]
    ensures RedemptionOk(t, |s.log|)
  {
    forall i | 0 <= i < |s.log| && t.log[i].ResetRedeemed?
      ensures t.log[i].h != h
    {
      assert EventOk(s, i);
      assert t.log[i] == s.log[i];
    }
  }

  lemma StoreIgnoresLog(s: System, t: System)
    requires StoreOk(s) && t == s.(log := t.log)
    ensures StoreOk(t)
  {
    forall h: TokenHash
      ensures TokenOk(t, h)
    {
      assert TokenOk(s, h);
    }
    forall d: nat
      ensures CallOk(t, d)
    {
      assert CallOk(s, d);
    }
    forall x: Holder, chain: Chain | Holds(t, x, chain)
      ensures Holds(s, x, chain)
    {
    }
    HoldersShrink(s, t);
  }

  /** The steps that touch no token. */
  predicate IsQuiet(call: Call) {
    call.LoginStarted? || call.TokenRevoked? || call.ForgotRead? || call.ResetConsumed?
  }

  /** Only the caller moves, to a chain it already held if to any; the refresh tokens stay. */
  ghost predicate OnlyMoves(s: System, t: System, c: nat) {
    && t == s.(users := t.users, reset := t.reset, calls := t.calls, replies := t.replies)
    && t.calls - {c} == s.calls - {c}
    && (InFlight(t, c) ==>
          InFlight(s, c) && t.calls[c].chain == s.calls[c].chain && t.calls[c].userId == s.calls[c].userId)
  }

  lemma MovingKeepsInv(s: System, t: System, c: nat)
    requires Inv(s) && OnlyMoves(s, t, c) && Grows(s, t)
    ensures Inv(t)
  {
    forall d: nat | d != c
      ensures d in t.calls <==> d in s.calls
      ensures d in s.calls ==> t.calls[d] == s.calls[d]
    {
      assert d in t.calls - {c} <==> d in s.calls - {c};
      assert d in s.calls ==> (t.calls - {c})[d] == (s.calls - {c})[d];
    }
    QuietStep(s, t, c);
  }

  lemma GotoOnlyMoves(s: System, c: nat, call: Call, users: map<UserId, Credential>)
    requires c in s.calls
    requires call.TokenRevoked? || call.Issuing? ==>
               InFlight(s, c) && call.chain == s.calls[c].chain && call.userId == s.calls[c].userId
    ensures var t := Goto(s.(users := users), c, call); OnlyMoves(s, t, c) && Grows(s, t)
  {
    assert s.calls[c := call] - {c} == s.calls - {c};
  }

  lemma FinishOnlyMoves(s: System, c: nat, reply: Reply)
    ensures OnlyMoves(s, Finish(s, c, reply), c) && Grows(s, Finish(s, c, reply))
  {
    assert s.calls - {c} - {c} == s.calls - {c};
  }

  lemma StoreResetOnlyMoves(s: System, c: nat, userId: UserId, newToken: nat)
    requires c in s.calls && !InFlight(s, c)
    ensures OnlyMoves(s, StoreResetStep(s, c, userId, newToken), c) && Grows(s, StoreResetStep(s, c, userId, newToken))
  {
    assert s.calls - {c} - {c} == s.calls - {c};
  }

  lemma LookupOnlyMoves(s: System, c: nat, userId: UserId, password: string)
    requires c in s.calls
    ensures var t := LookupStep(s, c, userId, password); OnlyMoves(s, t, c) && Grows(s, t)
  {
    if userId in s.users {
      GotoOnlyMoves(s, c, LoginRead(userId, password, s.users[userId]), s.users);
    } else {
      FinishOnlyMoves(s, c, Refused(BadRequest));
    }
  }

  lemma FoundOnlyMoves(s: System, c: nat, newToken: nat)
    requires c in s.calls && s.calls[c].TokenRevoked?
    ensures var t := AdvanceCall(s, c, newToken); OnlyMoves(s, t, c) && Grows(s, t)
  {
    var TokenRevoked(userId, chain) := s.calls[c];
    if userId in s.users {
      GotoOnlyMoves(s, c, Issuing(userId, chain, s.now + REFRESH_LIFETIME), s.users);
    } else {
      FinishOnlyMoves(s, c, Refused(NotFound));
    }
  }

  lemma WriteOnlyMoves(s: System, c: nat, userId: UserId, newPassword: string)
    requires c in s.calls
    ensures var t := WriteStep(s, c, userId, newPassword); OnlyMoves(s, t, c) && Grows(s, t)
  {
    if userId in s.users {
      var version := s.users[userId].version + 1;
      var users := s.users[userId := Credential(Argon2(newPassword), version)];
      GotoOnlyMoves(s, c, PasswordWritten(userId, version), users);
    } else {
      GotoOnlyMoves(s, c, PasswordWritten(userId, 0), s.users);
    }
  }

  lemma QuietAdvance(s: System, c: nat, newToken: nat)
    requires c in s.calls && IsQuiet(s.calls[c])
    ensures OnlyMoves(s, AdvanceCall(s, c, newToken), c) && Grows(s, AdvanceCall(s, c, newToken))
  {
    match s.calls[c] {
      case LoginStarted(userId, password) => LookupOnlyMoves(s, c, userId, password);
      case TokenRevoked(_, _) => FoundOnlyMoves(s, c, newToken);
      case ForgotRead(userId) => StoreResetOnlyMoves(s, c, userId, newToken);
      case ResetConsumed(userId, newPassword) => WriteOnlyMoves(s, c, userId, newPassword);
    }
  }

  lemma AdvanceKeepsInv(s: System, c: nat, newToken: nat)
    requires Inv(s) && c in s.calls
    ensures Inv(AdvanceCall(s, c, newToken)) && Grows(s, AdvanceCall(s, c, newToken))
  {
    match s.calls[c] {
      case RegisterChecked(userId, password) => RegisterKeepsInv(s, c, userId, password);
      case LoginRead(_, _, _) => VerifyKeepsInv(s, c);
      case RefreshStarted(h) => RedeemKeepsInv(s, c, h);
      case Issuing(_, _, _) => IssueKeepsInv(s, c, newToken);
      case LogoutStarted(userId) => RevokeKeepsInv(s, c, userId);
      case PasswordWritten(userId, _) => RevokeKeepsInv(s, c, userId);
      case ResetStarted(h, newPassword) => ConsumeKeepsInv(s, c, h, newPassword);
      case _ =>
        QuietAdvance(s, c, newToken);
        MovingKeepsInv(s, AdvanceCall(s, c, newToken), c);
    }
  }

  lemma TickKeepsInv(s: System, elapsed: nat)
    requires Inv(s)
    ensures Inv(s.(now := s.now + elapsed))
  {
    QuietStep(s, s.(now := s.now + elapsed), -1);
  }

  lemma BeginKeepsInv(s: System, c: nat, start: Call)
    requires Inv(s) && c !in s.calls && IsStart(start)
    ensures Inv(Goto(s, c, start))
  {
    QuietStep(s, Goto(s, c, start), c);
  }

  lemma StepKeepsInv(s: System, a: Action)
    requires Inv(s)
    ensures Inv(Step(s, a)) && Grows(s, Step(s, a))
  {
    match a {
      case Tick(elapsed) => TickKeepsInv(s, elapsed);
      case Begin(c, start) =>
        if c !in s.calls && IsStart(start) {
          BeginKeepsInv(s, c, start);
        }
      case Advance(c, newToken) =>
        if c in s.calls {
          AdvanceKeepsInv(s, c, newToken);
        }
    }
  }

  lemma {:induction false} EveryScheduleKeepsInv(schedule: seq<Action>)
    ensures Inv(After(schedule))
  {
    if schedule != [] {
      EveryScheduleKeepsInv(schedule[..|schedule| - 1]);
      StepKeepsInv(After(schedule[..|schedule| - 1]), schedule[|schedule| - 1]);
    }
  }

  // ---------------------------------------------------------------- every schedule

  /** A login's chain is always held by at most one token or in-flight call: rotation never forks a session. */
  lemma {:induction false} OneHolderPerChain(schedule: seq<Action>, a: Holder, b: Holder, chain: Chain)
    requires Holds(After(schedule), a, chain) && Holds(After(schedule), b, chain)
    ensures a == b
  {
    EveryScheduleKeepsInv(schedule);
  }

  /** Rotation never leaves the user who logged in. */
  lemma {:induction false} ChainsBelongToOneUser(schedule: seq<Action>, g: TokenHash, h: TokenHash)
    requires var s := After(schedule); g in s.refresh && h in s.refresh && g in s.chainOf && h in s.chainOf
    requires After(schedule).chainOf[g] == After(schedule).chainOf[h]
    ensures After(schedule).refresh[g].userId == After(schedule).refresh[h].userId
  {
    EveryScheduleKeepsInv(schedule);
    assert TokenOk(After(schedule), g) && TokenOk(After(schedule), h);
  }

  /** Every refresh token and every reset token is redeemed at most once, strictly before it expires. */
  lemma {:induction false} TokensAreRedeemedOnce(schedule: seq<Action>, i: nat, k: nat)
    requires i < k < |After(schedule).log|
    ensures var log := After(schedule).log;
            && !(log[i].Redeemed? && log[k].Redeemed? && log[i].h == log[k].h)
            && !(log[i].ResetRedeemed? && log[k].ResetRedeemed? && log[i].h == log[k].h)
            && (log[k].Redeemed? ==>
                  log[k].h in After(schedule).refresh && log[k].at < After(schedule).refresh[log[k].h].expiresAt)
  {
    EveryScheduleKeepsInv(schedule);
    assert RedemptionOk(After(schedule), k) && EventOk(After(schedule), k);
  }

  /** A refresh token stored before a logout or password reset of its user is never redeemed after it. */
  lemma {:induction false} RevokedTokensAreNeverRedeemed(
    schedule: seq<Action>, i: nat, j: nat, k: nat, h: TokenHash, userId: UserId)
    requires i < j < k < |After(schedule).log|
    requires After(schedule).log[i] == Stored(h, userId) && After(schedule).log[j] == RevokedAll(userId)
    requires After(schedule).log[k].Redeemed?
    ensures After(schedule).log[k].h != h
  {
    EveryScheduleKeepsInv(schedule);
    var s := After(schedule);
    assert EventOk(s, i) && EventOk(s, k) && RedemptionOk(s, k);
  }
}

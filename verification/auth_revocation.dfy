/**
  What a logout and a password reset end, over all schedules of `AuthRuns`: which sessions can outlive the revoke
  step, and which can still be opened with the old password.
 */
module AuthRevocation {
  import opened Wrappers
  import opened PaymentIntents
  import opened AuthStore
  import opened AuthService
  import opened AuthRuns

  // ---------------------------------------------------------------- what one step touches

  /** The calls that open a session when they advance. */
  predicate Opens(s: System, call: Call) {
    (call.LoginRead? && Verifies(call)) || (call.RegisterChecked? && call.userId !in s.users)
  }

  /** Which step writes users, which opens sessions, which reads a password and which has written one. */
  ghost predicate Touches(s: System, t: System, c: nat) {
    && c in s.calls
    && t.calls - {c} == s.calls - {c}
    && (s.calls[c].RegisterChecked? || s.calls[c].ResetConsumed? || t.users == s.users)
    && (Opens(s, s.calls[c]) || t.sessions == s.sessions)
    && (c in t.calls && t.calls[c].PasswordWritten? ==>
          s.calls[c].ResetConsumed? && t == WriteStep(s, c, s.calls[c].userId, s.calls[c].newPassword))
    && (c in t.calls && t.calls[c].LoginRead? ==>
          s.calls[c].LoginStarted? && t.calls[c].userId in s.users && t.calls[c].read == s.users[t.calls[c].userId])
    && (forall h: TokenHash | IsUnrevoked(t, h) && !IsUnrevoked(s, h) ::
          s.calls[c].Issuing? && h in t.chainOf && t.chainOf[h] == s.calls[c].chain)
    && (InFlight(t, c) ==>
          || (InFlight(s, c) && t.calls[c].chain == s.calls[c].chain)
          || (Opens(s, s.calls[c]) && t.calls[c].chain == |s.sessions|)
          || (s.calls[c].RefreshStarted? && IsUnrevoked(s, s.calls[c].h) &&
              t.calls[c].chain == if s.calls[c].h in s.chainOf then s.chainOf[s.calls[c].h] else 0))
  }

  lemma MapWithout<K, V>(m: map<K, V>, k: K, v: V)
    ensures m[k := v] - {k} == m - {k} && m - {k} - {k} == m - {k}
  {
  }

  lemma RegisterTouches(s: System, c: nat, userId: UserId, password: string)
    requires c in s.calls && s.calls[c] == RegisterChecked(userId, password)
    ensures Touches(s, RegisterStep(s, c, userId, password), c)
  {
    MapWithout(s.calls, c, Issuing(userId, |s.sessions|, s.now + REFRESH_LIFETIME));
  }

  lemma LookupTouches(s: System, c: nat, userId: UserId, password: string)
    requires c in s.calls && s.calls[c] == LoginStarted(userId, password)
    ensures Touches(s, LookupStep(s, c, userId, password), c)
  {
    if userId in s.users {
      MapWithout(s.calls, c, LoginRead(userId, password, s.users[userId]));
    } else {
      MapWithout(s.calls, c, s.calls[c]);
    }
  }

  lemma VerifyTouches(s: System, c: nat)
    requires c in s.calls && s.calls[c].LoginRead?
    ensures Touches(s, VerifyStep(s, c, s.calls[c]), c)
  {
    MapWithout(s.calls, c, Issuing(s.calls[c].userId, |s.sessions|, s.now + REFRESH_LIFETIME));
  }

  lemma RedeemTouches(s: System, c: nat, h: TokenHash)
    requires c in s.calls && s.calls[c] == RefreshStarted(h)
    ensures Touches(s, RedeemStep(s, c, h), c)
  {
    if IsRedeemable(s.refresh, h, s.now) {
      MapWithout(s.calls, c, TokenRevoked(s.refresh[h].userId, if h in s.chainOf then s.chainOf[h] else 0));
    } else {
      MapWithout(s.calls, c, s.calls[c]);
    }
  }

  lemma FoundTouches(s: System, c: nat, newToken: nat)
    requires c in s.calls && s.calls[c].TokenRevoked?
    ensures Touches(s, AdvanceCall(s, c, newToken), c)
  {
    var TokenRevoked(userId, chain) := s.calls[c];
    MapWithout(s.calls, c, Issuing(userId, chain, s.now + REFRESH_LIFETIME));
  }

  lemma IssueTouches(s: System, c: nat, newToken: nat)
    requires c in s.calls && s.calls[c].Issuing?
    ensures Touches(s, IssueStep(s, c, s.calls[c], newToken), c)
  {
    MapWithout(s.calls, c, s.calls[c]);
  }

  lemma RevokeTouches(s: System, c: nat, userId: UserId)
    requires c in s.calls
    ensures Touches(s, RevokeStep(s, c, userId), c)
  {
    MapWithout(s.calls, c, s.calls[c]);
  }

  lemma StoreResetTouches(s: System, c: nat, userId: UserId, newToken: nat)
    requires c in s.calls && s.calls[c] == ForgotRead(userId)
    ensures Touches(s, StoreResetStep(s, c, userId, newToken), c)
  {
    MapWithout(s.calls, c, s.calls[c]);
  }

  lemma ConsumeTouches(s: System, c: nat, h: TokenHash, newPassword: string)
    requires c in s.calls && s.calls[c] == ResetStarted(h, newPassword)
    ensures Touches(s, ConsumeStep(s, c, h, newPassword), c)
  {
    var owner := Consume(s.reset, h, s.now).1;
    if |newPassword| < 8 || owner.None? {
      MapWithout(s.calls, c, s.calls[c]);
    } else {
      MapWithout(s.calls, c, ResetConsumed(owner.value, newPassword));
    }
  }

  lemma WriteTouches(s: System, c: nat, userId: UserId, newPassword: string)
    requires c in s.calls && s.calls[c] == ResetConsumed(userId, newPassword)
    ensures Touches(s, WriteStep(s, c, userId, newPassword), c)
  {
    var version := if userId in s.users then s.users[userId].version + 1 else 0;
    MapWithout(s.calls, c, PasswordWritten(userId, version));
  }

  lemma AdvanceTouches(s: System, c: nat, newToken: nat)
    requires c in s.calls
    ensures Touches(s, AdvanceCall(s, c, newToken), c)
  {
    match s.calls[c] {
      case RegisterChecked(userId, password) => RegisterTouches(s, c, userId, password);
      case LoginStarted(userId, password) => LookupTouches(s, c, userId, password);
      case LoginRead(_, _, _) => VerifyTouches(s, c);
      case RefreshStarted(h) => RedeemTouches(s, c, h);
      case TokenRevoked(_, _) => FoundTouches(s, c, newToken);
      case Issuing(_, _, _) => IssueTouches(s, c, newToken);
      case LogoutStarted(userId) => RevokeTouches(s, c, userId);
      case ForgotRead(userId) => StoreResetTouches(s, c, userId, newToken);
      case ResetStarted(h, newPassword) => ConsumeTouches(s, c, h, newPassword);
      case ResetConsumed(userId, newPassword) => WriteTouches(s, c, userId, newPassword);
      case PasswordWritten(userId, _) => RevokeTouches(s, c, userId);
    }
  }

  /** Nobody but the advancing caller moves. */
  lemma OthersStay(s: System, t: System, c: nat, d: nat)
    requires Touches(s, t, c) && c != d
    ensures (d in t.calls <==> d in s.calls) && (d in s.calls ==> t.calls[d] == s.calls[d])
  {
    assert d in t.calls - {c} <==> d in s.calls - {c};
    assert d in s.calls ==> (t.calls - {c})[d] == (s.calls - {c})[d];
  }

  // ---------------------------------------------------------------- sessions opened before the revoke step

  ghost predicate IsHeld(s: System, chain: Chain) {
    exists x: Holder :: Holds(s, x, chain)
  }

  /** Whoever holds an opened chain after a step got it from a holder before the step. */
  lemma TokenGotChain(s: System, c: nat, newToken: nat, h: TokenHash, chain: Chain)
    requires c in s.calls && !IsUnrevoked(s, h) && Holds(AdvanceCall(s, c, newToken), Token(h), chain)
    ensures Holds(s, Caller(c), chain)
  {
    AdvanceTouches(s, c, newToken);
  }

  lemma CallerGotChain(s: System, c: nat, newToken: nat, d: nat, chain: Chain)
    requires c in s.calls && !Holds(s, Caller(d), chain) && Holds(AdvanceCall(s, c, newToken), Caller(d), chain)
    requires chain < |s.sessions| && (forall h: TokenHash :: TokenOk(s, h))
    ensures s.calls[c].RefreshStarted? && Holds(s, Token(s.calls[c].h), chain)
  {
    AdvanceTouches(s, c, newToken);
    if d != c {
      OthersStay(s, AdvanceCall(s, c, newToken), c, d);
    }
    assert s.calls[c].RefreshStarted? ==> TokenOk(s, s.calls[c].h);
  }

  /** Nobody can revive an opened chain that has no holder. */
  lemma AdvanceKeepsDead(s: System, c: nat, newToken: nat, chain: Chain)
    requires Inv(s) && c in s.calls && chain < |s.sessions| && !IsHeld(s, chain)
    ensures !IsHeld(AdvanceCall(s, c, newToken), chain)
  {
    var t := AdvanceCall(s, c, newToken);
    if x: Holder :| Holds(t, x, chain) {
      assert !Holds(s, x, chain);
      match x {
        case Token(h) =>
          AdvanceKeepsInv(s, c, newToken);
          assert h in s.refresh ==> TokenOk(s, h);
          TokenGotChain(s, c, newToken, h, chain);
        case Caller(d) =>
          CallerGotChain(s, c, newToken, d, chain);
      }
    }
  }

  lemma StepKeepsDead(s: System, a: Action, chain: Chain)
    requires Inv(s) && chain < |s.sessions| && !IsHeld(s, chain)
    ensures !IsHeld(Step(s, a), chain)
  {
    if a.Advance? && a.call in s.calls {
      AdvanceKeepsDead(s, a.call, a.newToken, chain);
    } else {
      forall x: Holder
        ensures !Holds(Step(s, a), x, chain)
      {
        assert !Holds(s, x, chain);
      }
    }
  }

  lemma {:induction false} DeadChainsStayDead(schedule: seq<Action>, i: nat, chain: Chain)
    requires i <= |schedule|
    requires chain < |After(schedule[..i]).sessions| && !IsHeld(After(schedule[..i]), chain)
    ensures !IsHeld(After(schedule), chain) && chain < |After(schedule).sessions|
  {
    if i < |schedule| {
      var before := schedule[..|schedule| - 1];
      assert before[..i] == schedule[..i];
      DeadChainsStayDead(before, i, chain);
      EveryScheduleKeepsInv(before);
      StepKeepsDead(After(before), schedule[|schedule| - 1], chain);
      StepKeepsInv(After(before), schedule[|schedule| - 1]);
    } else {
      assert schedule[..i] == schedule;
    }
  }

  /** A revoke-all step ends a chain of its user unless, and only unless, a call is in flight that already holds it. */
  lemma RevocationEndsExactly(s: System, c: nat, userId: UserId, chain: Chain)
    requires Inv(s) && c in s.calls && !InFlight(s, c) && chain < |s.sessions| && s.sessions[chain].userId == userId
    ensures IsHeld(RevokeStep(s, c, userId), chain) <==> exists d: nat :: Holds(s, Caller(d), chain)
  {
    var t := RevokeStep(s, c, userId);
    forall h: TokenHash
      ensures !Holds(t, Token(h), chain)
    {
      assert TokenOk(s, h);
    }
    if x: Holder :| Holds(t, x, chain) {
      assert x.Caller? && Holds(s, x, chain);
    }
    if d: nat :| Holds(s, Caller(d), chain) {
      assert Holds(t, Caller(d), chain);
    }
  }

  predicate Revokes(s: System, a: Action, userId: UserId) {
    && a.Advance? && a.call in s.calls
    && (s.calls[a.call] == LogoutStarted(userId)
       || (s.calls[a.call].PasswordWritten? && s.calls[a.call].userId == userId))
  }

  /**
    Logout and password reset, over whole schedules: once the revoke step of a user has run, a session of that user
    that no call held at that moment is over for good, whatever is refreshed, logged in or reset afterwards.
   */
  lemma {:induction false} RevocationIsForGood(schedule: seq<Action>, i: nat, userId: UserId, chain: Chain)
    requires i < |schedule| && Revokes(After(schedule[..i]), schedule[i], userId)
    requires chain < |After(schedule[..i]).sessions| && After(schedule[..i]).sessions[chain].userId == userId
    requires forall d: nat :: !Holds(After(schedule[..i]), Caller(d), chain)
    ensures !IsHeld(After(schedule), chain)
  {
    var s := After(schedule[..i]);
    EveryScheduleKeepsInv(schedule[..i]);
    assert schedule[..i + 1][..i] == schedule[..i] && schedule[..i + 1][i] == schedule[i];
    RevocationEndsExactly(s, schedule[i].call, userId, chain);
    assert After(schedule[..i + 1]) == RevokeStep(s, schedule[i].call, userId);
    DeadChainsStayDead(schedule, i + 1, chain);
  }

  // ---------------------------------------------------------------- sessions opened after it

  /** The revoke step of a reset that wrote version `version` of the user's password, or found no such user. */
  predicate ResetRevokes(s: System, a: Action, userId: UserId, version: nat) {
    a.Advance? && a.call in s.calls && s.calls[a.call] == PasswordWritten(userId, version)
  }

  /** Some password at least as new as `version` is stored; version 0 stands for a user the reset did not find. */
  ghost predicate HasVersion(s: System, userId: UserId, version: nat) {
    version > 0 ==> userId in s.users && s.users[userId].version >= version
  }

  ghost predicate WritesOk(s: System) {
    forall c | c in s.calls && s.calls[c].PasswordWritten? :: HasVersion(s, s.calls[c].userId, s.calls[c].version)
  }

  lemma WriteImproves(s: System, c: nat, userId: UserId, newPassword: string, other: UserId, version: nat)
    requires HasVersion(s, other, version)
    ensures HasVersion(WriteStep(s, c, userId, newPassword), other, version)
  {
  }

  lemma RegisterImproves(s: System, c: nat, userId: UserId, password: string, other: UserId, version: nat)
    requires HasVersion(s, other, version)
    ensures HasVersion(RegisterStep(s, c, userId, password), other, version)
  {
  }

  lemma VersionsGrow(s: System, a: Action, userId: UserId, version: nat)
    requires HasVersion(s, userId, version)
    ensures HasVersion(Step(s, a), userId, version)
  {
    if a.Advance? && a.call in s.calls {
      match s.calls[a.call] {
        case RegisterChecked(other, password) => RegisterImproves(s, a.call, other, password, userId, version);
        case ResetConsumed(other, password) => WriteImproves(s, a.call, other, password, userId, version);
        case _ => AdvanceTouches(s, a.call, a.newToken);
      }
    }
  }

  lemma WrittenVersion(s: System, c: nat, userId: UserId, newPassword: string)
    ensures var t := WriteStep(s, c, userId, newPassword);
            && c in t.calls && t.calls[c].PasswordWritten?
            && HasVersion(t, t.calls[c].userId, t.calls[c].version)
  {
  }

  lemma AdvanceKeepsWritesOk(s: System, c: nat, newToken: nat)
    requires WritesOk(s) && c in s.calls
    ensures WritesOk(AdvanceCall(s, c, newToken))
  {
    var t := AdvanceCall(s, c, newToken);
    AdvanceTouches(s, c, newToken);
    forall d: nat | d in t.calls && t.calls[d].PasswordWritten?
      ensures HasVersion(t, t.calls[d].userId, t.calls[d].version)
    {
      if d == c {
        WrittenVersion(s, c, s.calls[c].userId, s.calls[c].newPassword);
      } else {
        OthersStay(s, t, c, d);
        VersionsGrow(s, Advance(c, newToken), s.calls[d].userId, s.calls[d].version);
      }
    }
  }

  lemma StepKeepsWritesOk(s: System, a: Action)
    requires WritesOk(s)
    ensures WritesOk(Step(s, a))
  {
    if a.Advance? && a.call in s.calls {
      AdvanceKeepsWritesOk(s, a.call, a.newToken);
    }
  }

  lemma {:induction false} EveryScheduleKeepsWritesOk(schedule: seq<Action>)
    ensures WritesOk(After(schedule))
  {
    if schedule != [] {
      EveryScheduleKeepsWritesOk(schedule[..|schedule| - 1]);
      StepKeepsWritesOk(After(schedule[..|schedule| - 1]), schedule[|schedule| - 1]);
    }
  }

  /** A login that has read an older password than `version` and not yet checked against it. */
  predicate IsStaleRead(call: Call, userId: UserId, version: nat) {
    call.LoginRead? && call.userId == userId && call.read.version < version
  }

  /** Chain `chain` was opened with the password that a stale login at `s` has read and will accept. */
  ghost predicate FromStaleRead(s: System, session: Session, version: nat) {
    exists d :: d in s.calls && IsStaleRead(s.calls[d], session.userId, version) && Verifies(s.calls[d]) &&
                s.calls[d].read.version == session.version
  }

  /** Since `s`, older passwords of the user opened sessions only through logins that had read them at `s`. */
  ghost predicate OnlyStale(s: System, t: System, userId: UserId, version: nat) {
    && HasVersion(t, userId, version)
    && |s.sessions| <= |t.sessions|
    && (forall d | d in t.calls && IsStaleRead(t.calls[d], userId, version) :: d in s.calls && s.calls[d] == t.calls[d])
    && (forall chain | |s.sessions| <= chain < |t.sessions| && t.sessions[chain].userId == userId &&
                       t.sessions[chain].version < version :: FromStaleRead(s, t.sessions[chain], version))
  }

  lemma OpeningKeepsOnlyStale(s: System, t: System, u: System, userId: UserId, version: nat, session: Session)
    requires OnlyStale(s, t, userId, version) && HasVersion(u, userId, version)
    requires u.sessions == t.sessions + [session]
    requires forall d | d in u.calls && IsStaleRead(u.calls[d], userId, version) ::
               d in t.calls && t.calls[d] == u.calls[d]
    requires session.userId == userId && session.version < version ==> FromStaleRead(s, session, version)
    ensures OnlyStale(s, u, userId, version)
  {
  }

  lemma QuietKeepsOnlyStale(s: System, t: System, u: System, userId: UserId, version: nat)
    requires OnlyStale(s, t, userId, version) && HasVersion(u, userId, version)
    requires u.sessions == t.sessions
    requires forall d | d in u.calls && IsStaleRead(u.calls[d], userId, version) ::
               d in t.calls && t.calls[d] == u.calls[d]
    ensures OnlyStale(s, u, userId, version)
  {
  }

  lemma NoNewStaleRead(t: System, a: Action, userId: UserId, version: nat, d: nat)
    requires HasVersion(t, userId, version) && d in Step(t, a).calls
             && IsStaleRead(Step(t, a).calls[d], userId, version)
    ensures d in t.calls && t.calls[d] == Step(t, a).calls[d]
  {
    if a.Advance? && a.call in t.calls {
      AdvanceTouches(t, a.call, a.newToken);
      if d != a.call {
        OthersStay(t, Step(t, a), a.call, d);
      }
    }
  }

  lemma StepKeepsOnlyStale(s: System, t: System, a: Action, userId: UserId, version: nat)
    requires OnlyStale(s, t, userId, version)
    ensures OnlyStale(s, Step(t, a), userId, version)
  {
    var u := Step(t, a);
    VersionsGrow(t, a, userId, version);
    forall d: nat | d in u.calls && IsStaleRead(u.calls[d], userId, version)
      ensures d in t.calls && t.calls[d] == u.calls[d]
    {
      NoNewStaleRead(t, a, userId, version, d);
    }
    if a.Advance? && a.call in t.calls && Opens(t, t.calls[a.call]) {
      AdvanceKeepsOnlyStale(s, t, a.call, a.newToken, userId, version);
    } else {
      if a.Advance? && a.call in t.calls {
        AdvanceTouches(t, a.call, a.newToken);
      }
      QuietKeepsOnlyStale(s, t, u, userId, version);
    }
  }

  lemma AdvanceKeepsOnlyStale(s: System, t: System, c: nat, newToken: nat, userId: UserId, version: nat)
    requires OnlyStale(s, t, userId, version) && c in t.calls && Opens(t, t.calls[c])
    requires var u := AdvanceCall(t, c, newToken);
             && HasVersion(u, userId, version)
             && forall d | d in u.calls && IsStaleRead(u.calls[d], userId, version) ::
                  d in t.calls && t.calls[d] == u.calls[d]
    ensures OnlyStale(s, AdvanceCall(t, c, newToken), userId, version)
  {
    var call := t.calls[c];
    var u := AdvanceCall(t, c, newToken);
    if call.LoginRead? {
      OpeningKeepsOnlyStale(s, t, u, userId, version, Session(call.userId, call.read.version));
    } else {
      OpeningKeepsOnlyStale(s, t, u, userId, version, Session(call.userId, 0));
    }
  }

  lemma {:induction false} LaterOnlyStale(schedule: seq<Action>, i: nat, userId: UserId, version: nat)
    requires i <= |schedule| && HasVersion(After(schedule[..i]), userId, version)
    ensures OnlyStale(After(schedule[..i]), After(schedule), userId, version)
  {
    if i < |schedule| {
      var before := schedule[..|schedule| - 1];
      assert before[..i] == schedule[..i];
      LaterOnlyStale(before, i, userId, version);
      StepKeepsOnlyStale(After(schedule[..i]), After(before), schedule[|schedule| - 1], userId, version);
    } else {
      assert schedule[..i] == schedule;
    }
  }

  /** How a session of the user came to be held after the revoke step of a reset, seen from that step. */
  ghost predicate Survives(s: System, chain: Chain, session: Session, version: nat) {
    if chain < |s.sessions| then exists d: nat :: Holds(s, Caller(d), chain)
    else session.version >= version || FromStaleRead(s, session, version)
  }

  /**
    Every session of the user that anybody holds at any time after a reset's revoke step was held by a call in flight
    at that step, or opened later: with a password at least as new as the one the reset wrote, or by a login that had
    read an older one before.
   */
  lemma {:induction false} SessionsAfterReset(schedule: seq<Action>, i: nat, userId: UserId, version: nat, chain: Chain)
    requires i < |schedule| && ResetRevokes(After(schedule[..i]), schedule[i], userId, version)
    requires chain < |After(schedule).sessions| && After(schedule).sessions[chain].userId == userId
    requires IsHeld(After(schedule), chain)
    ensures Survives(After(schedule[..i]), chain, After(schedule).sessions[chain], version)
  {
    var s := After(schedule[..i]);
    EveryScheduleKeepsWritesOk(schedule[..i]);
    LaterOnlyStale(schedule, i, userId, version);
    SessionsGrow(schedule, i);
    if chain < |s.sessions| && !(exists d: nat :: Holds(s, Caller(d), chain)) {
      RevocationIsForGood(schedule, i, userId, chain);
    }
  }

  lemma {:induction false} SessionsGrow(schedule: seq<Action>, i: nat)
    requires i <= |schedule|
    ensures After(schedule[..i]).sessions <= After(schedule).sessions
  {
    if i < |schedule| {
      var before := schedule[..|schedule| - 1];
      assert before[..i] == schedule[..i];
      SessionsGrow(before, i);
      EveryScheduleKeepsInv(before);
      StepKeepsInv(After(before), schedule[|schedule| - 1]);
    } else {
      assert schedule[..i] == schedule;
    }
  }

  // ---------------------------------------------------------------- when a reset locks the old password out

  /** Some session opened with an older password is held. */
  ghost predicate OldSessionHeld(s: System, userId: UserId, version: nat) {
    exists chain: nat ::
      chain < |s.sessions| && s.sessions[chain].userId == userId && s.sessions[chain].version < version
        && IsHeld(s, chain)
  }

  /** A call that can still end in an old session: it holds one, or has read an old password and will accept it. */
  ghost predicate CarriesOld(s: System, d: nat, userId: UserId, version: nat) {
    d in s.calls &&
    if InFlight(s, d) then
      && s.calls[d].chain < |s.sessions|
      && s.sessions[s.calls[d].chain].userId == userId
      && s.sessions[s.calls[d].chain].version < version
    else IsStaleRead(s.calls[d], userId, version) && Verifies(s.calls[d])
  }

  ghost predicate NobodyCarriesOld(s: System, userId: UserId, version: nat) {
    forall d: nat :: !CarriesOld(s, d, userId, version)
  }

  /** However the schedule goes on, no session of the user opened with an older password is ever held. */
  ghost predicate OldPasswordsAreOut(run: seq<Action>, userId: UserId, version: nat) {
    forall more: seq<Action> :: !OldSessionHeld(After(run + more), userId, version)
  }

  /**
    Exactly when a reset is complete: the old passwords are out for good if and only if, when the revoke step runs, no
    call in flight holds a session opened with one and no login has read one that it will accept.
   */
  lemma {:induction false} ResetIsCompleteExactly(run: seq<Action>, a: Action, userId: UserId, version: nat)
    requires ResetRevokes(After(run), a, userId, version)
    ensures OldPasswordsAreOut(run + [a], userId, version) <==> NobodyCarriesOld(After(run), userId, version)
  {
    if NobodyCarriesOld(After(run), userId, version) {
      forall more: seq<Action>
        ensures !OldSessionHeld(After(run + [a] + more), userId, version)
      {
        if OldSessionHeld(After(run + [a] + more), userId, version) {
          HeldWasCarried(run, a, more, userId, version);
        }
      }
    } else {
      var d: nat :| CarriesOld(After(run), d, userId, version);
      var more := CarriedIsHeld(run, a, d, userId, version);
      assert OldSessionHeld(After(run + [a] + more), userId, version);
    }
  }

  lemma {:induction false} HeldWasCarried(run: seq<Action>, a: Action, more: seq<Action>, userId: UserId, version: nat)
    requires ResetRevokes(After(run), a, userId, version) && OldSessionHeld(After(run + [a] + more), userId, version)
    ensures exists d: nat :: CarriesOld(After(run), d, userId, version)
  {
    var (s, schedule) := (After(run), run + [a] + more);
    assert schedule[..|run|] == run && schedule[|run|] == a;
    var chain: nat :| chain < |After(schedule).sessions| && After(schedule).sessions[chain].userId == userId &&
                      After(schedule).sessions[chain].version < version && IsHeld(After(schedule), chain);
    SessionsAfterReset(schedule, |run|, userId, version, chain);
    SessionsGrow(schedule, |run|);
    if chain < |s.sessions| {
      var d: nat :| Holds(s, Caller(d), chain);
      assert CarriesOld(s, d, userId, version);
    } else {
      var d :| d in s.calls && IsStaleRead(s.calls[d], userId, version) && Verifies(s.calls[d]);
      assert CarriesOld(s, d, userId, version);
    }
  }

  lemma CarriedIsHeld(run: seq<Action>, a: Action, d: nat, userId: UserId, version: nat) returns (more: seq<Action>)
    requires ResetRevokes(After(run), a, userId, version) && CarriesOld(After(run), d, userId, version)
    ensures OldSessionHeld(After(run + [a] + more), userId, version)
  {
    var s := After(run);
    assert (run + [a])[..|run|] == run;
    var t := After(run + [a]);
    assert t == RevokeStep(s, a.call, userId);
    assert d in t.calls && t.calls[d] == s.calls[d];
    if InFlight(s, d) {
      more := [];
      assert run + [a] + more == run + [a];
      assert Holds(t, Caller(d), s.calls[d].chain);
    } else {
      more := [Advance(d, 0)];
      assert (run + [a] + more)[..|run + [a]|] == run + [a];
      var u := After(run + [a] + more);
      assert u == VerifyStep(t, d, t.calls[d]);
      assert Holds(u, Caller(d), |t.sessions|);
      assert u.sessions[|t.sessions|] == Session(userId, s.calls[d].read.version);
    }
  }

  // ---------------------------------------------------------------- two schedules in which a session survives

  function Steps(s: System, actions: seq<Action>): System {
    if actions == [] then s else Step(Steps(s, actions[..|actions| - 1]), actions[|actions| - 1])
  }

  lemma {:induction false} AfterSteps(run: seq<Action>, more: seq<Action>)
    ensures After(run + more) == Steps(After(run), more)
  {
    if more == [] {
      assert run + more == run;
    } else {
      AfterSteps(run, more[..|more| - 1]);
      assert (run + more)[..|run + more| - 1] == run + more[..|more| - 1];
    }
  }

  lemma StepsOne(s: System, actions: seq<Action>, a: Action)
    ensures Steps(s, actions + [a]) == Step(Steps(s, actions), a)
  {
    assert (actions + [a])[..|actions|] == actions;
  }

  lemma StepsTwo(s: System, a: Action, b: Action)
    ensures Steps(s, [a, b]) == Step(Step(s, a), b)
  {
    StepsOne(s, [], a);
    StepsOne(s, [a], b);
    assert [] + [a] == [a] && [a] + [b] == [a, b];
  }

  lemma StepsThree(s: System, a: Action, b: Action, c: Action)
    ensures Steps(s, [a, b, c]) == Step(Step(Step(s, a), b), c)
  {
    StepsTwo(s, a, b);
    StepsOne(s, [a, b], c);
    assert [a, b] + [c] == [a, b, c];
  }

  lemma {:induction false} StepsAppend(s: System, front: seq<Action>, back: seq<Action>)
    ensures Steps(s, front + back) == Steps(Steps(s, front), back)
  {
    if back == [] {
      assert front + back == front;
    } else {
      StepsAppend(s, front, back[..|back| - 1]);
      assert (front + back)[..|front + back| - 1] == front + back[..|back| - 1];
    }
  }

  function Register(c: nat, userId: UserId, password: string, token: nat): seq<Action> {
    [Begin(c, RegisterChecked(userId, password)), Advance(c, 0), Advance(c, token)]
  }

  function HalfRefresh(c: nat, h: TokenHash): seq<Action> {
    [Begin(c, RefreshStarted(h)), Advance(c, 0), Advance(c, 0)]
  }

  function Logout(c: nat, userId: UserId): seq<Action> {
    [Begin(c, LogoutStarted(userId)), Advance(c, 0)]
  }

  function Forgot(c: nat, userId: UserId, token: nat): seq<Action> {
    [Begin(c, ForgotRead(userId)), Advance(c, token)]
  }

  function HalfLogin(c: nat, userId: UserId, password: string): seq<Action> {
    [Begin(c, LoginStarted(userId, password)), Advance(c, 0)]
  }

  function HalfReset(c: nat, h: TokenHash, newPassword: string): seq<Action> {
    [Begin(c, ResetStarted(h, newPassword)), Advance(c, 0), Advance(c, 0)]
  }

  lemma RegisterSteps(s: System, c: nat, userId: UserId, password: string, token: nat)
    requires c !in s.calls && userId !in s.users && Sha256(token) !in s.refresh
    ensures Step(Step(Step(s, Begin(c, RegisterChecked(userId, password))), Advance(c, 0)), Advance(c, token)) ==
            s.(users := s.users[userId := Credential(Argon2(password), 0)],
               refresh := s.refresh[Sha256(token) := RefreshRecord(userId, s.now + REFRESH_LIFETIME, None, s.now)],
               chainOf := s.chainOf[Sha256(token) := |s.sessions|], sessions := s.sessions + [Session(userId, 0)],
               replies := s.replies[c := Issued(token)], log := s.log + [Stored(Sha256(token), userId)])
  {
    var s1 := Step(s, Begin(c, RegisterChecked(userId, password)));
    var s2 := Step(s1, Advance(c, 0));
    assert s2.calls == s.calls[c := Issuing(userId, |s.sessions|, s.now + REFRESH_LIFETIME)];
    assert s2.calls - {c} == s.calls;
  }

  lemma RegisterRun(s: System, c: nat, userId: UserId, password: string, token: nat)
    requires c !in s.calls && userId !in s.users && Sha256(token) !in s.refresh
    ensures Steps(s, Register(c, userId, password, token)) ==
            s.(users := s.users[userId := Credential(Argon2(password), 0)],
               refresh := s.refresh[Sha256(token) := RefreshRecord(userId, s.now + REFRESH_LIFETIME, None, s.now)],
               chainOf := s.chainOf[Sha256(token) := |s.sessions|], sessions := s.sessions + [Session(userId, 0)],
               replies := s.replies[c := Issued(token)], log := s.log + [Stored(Sha256(token), userId)])
  {
    StepsThree(s, Begin(c, RegisterChecked(userId, password)), Advance(c, 0), Advance(c, token));
    RegisterSteps(s, c, userId, password, token);
  }

  lemma HalfRefreshSteps(s: System, c: nat, h: TokenHash)
    requires c !in s.calls && IsRedeemable(s.refresh, h, s.now) && h in s.chainOf && s.refresh[h].userId in s.users
    ensures Step(Step(Step(s, Begin(c, RefreshStarted(h))), Advance(c, 0)), Advance(c, 0)) ==
            s.(calls := s.calls[c := Issuing(s.refresh[h].userId, s.chainOf[h], s.now + REFRESH_LIFETIME)],
               refresh := s.refresh[h := s.refresh[h].(revokedAt := Some(s.now))],
               log := s.log + [Redeemed(h, s.refresh[h].userId, s.now)])
  {
    var s1 := Step(s, Begin(c, RefreshStarted(h)));
    var s2 := Step(s1, Advance(c, 0));
    assert s2.calls == s.calls[c := TokenRevoked(s.refresh[h].userId, s.chainOf[h])];
  }

  lemma HalfRefreshRun(s: System, c: nat, h: TokenHash)
    requires c !in s.calls && IsRedeemable(s.refresh, h, s.now) && h in s.chainOf && s.refresh[h].userId in s.users
    ensures Steps(s, HalfRefresh(c, h)) ==
            s.(calls := s.calls[c := Issuing(s.refresh[h].userId, s.chainOf[h], s.now + REFRESH_LIFETIME)],
               refresh := s.refresh[h := s.refresh[h].(revokedAt := Some(s.now))],
               log := s.log + [Redeemed(h, s.refresh[h].userId, s.now)])
  {
    StepsThree(s, Begin(c, RefreshStarted(h)), Advance(c, 0), Advance(c, 0));
    HalfRefreshSteps(s, c, h);
  }

  lemma LogoutRun(s: System, c: nat, userId: UserId)
    requires c !in s.calls
    ensures Steps(s, Logout(c, userId)) ==
            s.(refresh := RevokeAll(s.refresh, userId, s.now), replies := s.replies[c := Completed],
               log := s.log + [RevokedAll(userId)])
  {
    StepsTwo(s, Begin(c, LogoutStarted(userId)), Advance(c, 0));
    assert s.calls[c := LogoutStarted(userId)] - {c} == s.calls;
  }

  lemma ForgotSteps(s: System, c: nat, userId: UserId, token: nat)
    requires c !in s.calls && Sha256(token) !in s.reset
    ensures Step(Step(s, Begin(c, ForgotRead(userId))), Advance(c, token)) ==
            s.(reset := s.reset[Sha256(token) := ResetRecord(userId, s.now + RESET_LIFETIME, None, s.now)],
               replies := s.replies[c := Completed])
  {
    assert s.calls[c := ForgotRead(userId)] - {c} == s.calls;
  }

  lemma ForgotRun(s: System, c: nat, userId: UserId, token: nat)
    requires c !in s.calls && Sha256(token) !in s.reset
    ensures Steps(s, Forgot(c, userId, token)) ==
            s.(reset := s.reset[Sha256(token) := ResetRecord(userId, s.now + RESET_LIFETIME, None, s.now)],
               replies := s.replies[c := Completed])
  {
    StepsTwo(s, Begin(c, ForgotRead(userId)), Advance(c, token));
    ForgotSteps(s, c, userId, token);
  }

  lemma HalfLoginSteps(s: System, c: nat, userId: UserId, password: string)
    requires c !in s.calls && userId in s.users
    ensures Step(Step(s, Begin(c, LoginStarted(userId, password))), Advance(c, 0)) ==
            s.(calls := s.calls[c := LoginRead(userId, password, s.users[userId])])
  {
  }

  lemma HalfLoginRun(s: System, c: nat, userId: UserId, password: string)
    requires c !in s.calls && userId in s.users
    ensures Steps(s, HalfLogin(c, userId, password)) ==
            s.(calls := s.calls[c := LoginRead(userId, password, s.users[userId])])
  {
    StepsTwo(s, Begin(c, LoginStarted(userId, password)), Advance(c, 0));
    HalfLoginSteps(s, c, userId, password);
  }

  lemma HalfResetSteps(s: System, c: nat, h: TokenHash, newPassword: string, userId: UserId)
    requires c !in s.calls && |newPassword| >= 8 && Consume(s.reset, h, s.now).1 == Some(userId) && userId in s.users
    ensures var version := s.users[userId].version + 1;
            Step(Step(Step(s, Begin(c, ResetStarted(h, newPassword))), Advance(c, 0)), Advance(c, 0)) ==
            s.(calls := s.calls[c := PasswordWritten(userId, version)],
               users := s.users[userId := Credential(Argon2(newPassword), version)],
               reset := Consume(s.reset, h, s.now).0,
               log := s.log + [ResetRedeemed(h, userId, s.now)])
  {
    var s1 := Step(s, Begin(c, ResetStarted(h, newPassword)));
    var s2 := Step(s1, Advance(c, 0));
    assert s2.calls == s.calls[c := ResetConsumed(userId, newPassword)];
  }

  /** A reset up to, and without, its revoke step. */
  lemma HalfResetRun(s: System, c: nat, h: TokenHash, newPassword: string, userId: UserId)
    requires c !in s.calls && |newPassword| >= 8 && Consume(s.reset, h, s.now).1 == Some(userId) && userId in s.users
    ensures var version := s.users[userId].version + 1;
            Steps(s, HalfReset(c, h, newPassword)) ==
            s.(calls := s.calls[c := PasswordWritten(userId, version)],
               users := s.users[userId := Credential(Argon2(newPassword), version)],
               reset := Consume(s.reset, h, s.now).0,
               log := s.log + [ResetRedeemed(h, userId, s.now)])
  {
    StepsThree(s, Begin(c, ResetStarted(h, newPassword)), Advance(c, 0), Advance(c, 0));
    HalfResetSteps(s, c, h, newPassword, userId);
  }

  lemma LoginRest(s: System, c: nat, token: nat)
    requires c in s.calls && s.calls[c].LoginRead? && Verifies(s.calls[c]) && Sha256(token) !in s.refresh
    ensures var t := Step(Step(s, Advance(c, 0)), Advance(c, token));
            && t.users == s.users
            && t.sessions == s.sessions + [Session(s.calls[c].userId, s.calls[c].read.version)]
            && Holds(t, Token(Sha256(token)), |s.sessions|)
  {
    var s1 := Step(s, Advance(c, 0));
    assert s1.calls[c] == Issuing(s.calls[c].userId, |s.sessions|, s.now + REFRESH_LIFETIME);
  }

  // ---------------------------------------------------------------- a refresh in flight outlives a logout

  /** A refresh that has spent its token, a logout, and then the end of the refresh. */
  function OvertakenLogout(c: nat, h: TokenHash, d: nat, userId: UserId, newToken: nat): seq<Action> {
    HalfRefresh(c, h) + Logout(d, userId) + [Advance(c, newToken)]
  }

  /** From every state with a redeemable token, the schedule leaves its user a session that outlived the logout. */
  lemma RefreshOutlivesLogout(s: System, c: nat, h: TokenHash, d: nat, newToken: nat)
    requires c != d && c !in s.calls && d !in s.calls && Sha256(newToken) !in s.refresh
    requires IsRedeemable(s.refresh, h, s.now) && h in s.chainOf && s.refresh[h].userId in s.users
    ensures var userId := s.refresh[h].userId;
            var t := Steps(s, OvertakenLogout(c, h, d, userId, newToken));
            && t.log == s.log + [Redeemed(h, userId, s.now)] + [RevokedAll(userId)] + [Stored(Sha256(newToken), userId)]
            && Holds(t, Token(Sha256(newToken)), s.chainOf[h]) && t.refresh[Sha256(newToken)].userId == userId
  {
    var userId := s.refresh[h].userId;
    var s1 := Steps(s, HalfRefresh(c, h));
    HalfRefreshRun(s, c, h);
    LogoutRun(s1, d, userId);
    StepsAppend(s, HalfRefresh(c, h), Logout(d, userId));
    StepsOne(s, HalfRefresh(c, h) + Logout(d, userId), Advance(c, newToken));
    IssueRun(Steps(s1, Logout(d, userId)), c, newToken);
  }

  lemma IssueRun(s: System, c: nat, newToken: nat)
    requires c in s.calls && s.calls[c].Issuing? && Sha256(newToken) !in s.refresh
    ensures var t := Step(s, Advance(c, newToken));
            && t.log == s.log + [Stored(Sha256(newToken), s.calls[c].userId)]
            && Holds(t, Token(Sha256(newToken)), s.calls[c].chain)
            && t.refresh[Sha256(newToken)].userId == s.calls[c].userId
  {
  }

  // ---------------------------------------------------------------- a login in flight outlives a reset

  /** The revoke step, and then the end of the login. */
  function RestOfBoth(c: nat, d: nat, newToken: nat): seq<Action> {
    [Advance(d, 0), Advance(c, 0), Advance(c, newToken)]
  }

  /** From every state with a login that read an old password and a reset about to revoke. */
  lemma RevokeThenLogin(s: System, c: nat, d: nat, userId: UserId, version: nat, newToken: nat)
    requires c != d && c in s.calls && d in s.calls && s.calls[d] == PasswordWritten(userId, version)
    requires IsStaleRead(s.calls[c], userId, version) && Verifies(s.calls[c]) && Sha256(newToken) !in s.refresh
    ensures var t := Steps(s, RestOfBoth(c, d, newToken));
            t.users == s.users && OldSessionHeld(t, userId, version)
  {
    StepsThree(s, Advance(d, 0), Advance(c, 0), Advance(c, newToken));
    var s1 := Step(s, Advance(d, 0));
    assert s1 == RevokeStep(s, d, userId);
    assert s1.calls[c] == s.calls[c] && s1.refresh.Keys == s.refresh.Keys;
    LoginRest(s1, c, newToken);
    var t := Step(Step(s1, Advance(c, 0)), Advance(c, newToken));
    assert t.sessions[|s1.sessions|].version < version && IsHeld(t, |s1.sessions|);
  }

  // ---------------------------------------------------------------- both, from the empty system

  /** User 7 registers and asks for a reset token. */
  const Prepared: seq<Action> := Register(0, 7, "password one", 1) + Forgot(1, 7, 5)

  lemma AfterPrepared()
    ensures var s := After(Prepared);
            && s.now == 0 && s.calls == map[] && s.refresh.Keys == {Sha256(1)}
            && IsRedeemable(s.refresh, Sha256(1), 0) && s.refresh[Sha256(1)].userId == 7 && Sha256(1) in s.chainOf
            && 7 in s.users && s.users[7] == Credential(Argon2("password one"), 0)
            && Consume(s.reset, Sha256(5), 0).1 == Some(7)
  {
    var s1 := Steps(Empty, Register(0, 7, "password one", 1));
    AfterSteps([], Prepared);
    assert [] + Prepared == Prepared;
    StepsAppend(Empty, Register(0, 7, "password one", 1), Forgot(1, 7, 5));
    RegisterRun(Empty, 0, 7, "password one", 1);
    ForgotRun(s1, 1, 7, 5);
  }

  /** The condition of `RevocationIsForGood` is needed: the session of an in-flight refresh outlives the logout. */
  lemma InFlightRefreshOutlivesLogout()
    ensures var s := After(Prepared + OvertakenLogout(2, Sha256(1), 3, 7, 2));
            && RevokedAll(7) in s.log
            && s.log[|s.log| - 1] == Stored(Sha256(2), 7)
            && IsUnrevoked(s, Sha256(2)) && s.refresh[Sha256(2)].userId == 7
  {
    AfterPrepared();
    AfterSteps(Prepared, OvertakenLogout(2, Sha256(1), 3, 7, 2));
    RefreshOutlivesLogout(After(Prepared), 2, Sha256(1), 3, 2);
    var log := After(Prepared + OvertakenLogout(2, Sha256(1), 3, 7, 2)).log;
    assert log[|log| - 2] == RevokedAll(7);
  }

  const ReadOldPassword: seq<Action> := Prepared + HalfLogin(2, 7, "password one")

  lemma AfterReadOldPassword()
    ensures After(ReadOldPassword) ==
            After(Prepared).(calls := map[2 := LoginRead(7, "password one", Credential(Argon2("password one"), 0))])
  {
    AfterPrepared();
    AfterSteps(Prepared, HalfLogin(2, 7, "password one"));
    HalfLoginRun(After(Prepared), 2, 7, "password one");
  }

  const WroteNewPassword: seq<Action> := ReadOldPassword + HalfReset(3, Sha256(5), "password two")

  lemma AfterWroteNewPassword()
    ensures var s := After(WroteNewPassword);
            && s.calls ==
                 map[2 := LoginRead(7, "password one", Credential(Argon2("password one"), 0)),
                     3 := PasswordWritten(7, 1)]
            && 7 in s.users && s.users[7] == Credential(Argon2("password two"), 1)
            && s.refresh.Keys == {Sha256(1)}
  {
    var s := After(ReadOldPassword);
    AfterPrepared();
    AfterReadOldPassword();
    AfterSteps(ReadOldPassword, HalfReset(3, Sha256(5), "password two"));
    assert |"password two"| >= 8;
    HalfResetRun(s, 3, Sha256(5), "password two", 7);
  }

  /**
    A complete schedule in which a login with the old password outlives a reset: nothing is in flight when the revoke
    step runs, and all that is left is a login that has read the old password.
   */
  lemma StaleLoginOutlivesReset()
    ensures ResetRevokes(After(WroteNewPassword), Advance(3, 0), 7, 1)
    ensures forall d: nat :: !InFlight(After(WroteNewPassword), d)
    ensures var t := After(WroteNewPassword + RestOfBoth(2, 3, 2));
            7 in t.users && t.users[7] == Credential(Argon2("password two"), 1) && OldSessionHeld(t, 7, 1)
  {
    AfterWroteNewPassword();
    AfterSteps(WroteNewPassword, RestOfBoth(2, 3, 2));
    RevokeThenLogin(After(WroteNewPassword), 2, 3, 7, 1, 2);
  }
}

/**
  Token rotation of services/api/src/auth/service.rs as step sequences over the store.  Generated tokens are fresh.
 */
module AuthService {
  import opened Wrappers
  import opened Text
  import opened PaymentIntents
  import opened AuthStore

  datatype AuthError = BadRequest | NotFound

  const REFRESH_LIFETIME: int := 30 * 24 * 3600 * NANOS
  const RESET_LIFETIME: int := 3600 * NANOS

  /**
    What an uninterrupted `refresh` does to the tokens: the old one is spent even when no user answers to it any more.
   */
  function Refreshed(tokens: RefreshTokens, users: Users, token: nat, newToken: nat, now: Time)
    : (RefreshTokens, Result<nat, AuthError>)
  {
    var (spent, owner) := Redeem(tokens, Sha256(token), now);
    match owner
    case None => (spent, Err(BadRequest))
    case Some(userId) =>
      if userId !in users then (spent, Err(NotFound))
      else (spent[Sha256(newToken) := RefreshRecord(userId, now + REFRESH_LIFETIME, None, now)], Ok(newToken))
  }

  /** A successful rotation hands the session of one user from exactly the old token to exactly the new one. */
  lemma RefreshRotates(tokens: RefreshTokens, users: Users, token: nat, newToken: nat, now: Time, h: TokenHash)
    requires Sha256(newToken) !in tokens
    requires Refreshed(tokens, users, token, newToken, now).1.Ok?
    ensures var after := Refreshed(tokens, users, token, newToken, now).0;
            && IsRedeemable(tokens, Sha256(token), now) && !IsRedeemable(after, Sha256(token), now)
            && IsRedeemable(after, Sha256(newToken), now)
            && after[Sha256(newToken)].userId == tokens[Sha256(token)].userId
            && (h != Sha256(token) && h != Sha256(newToken) ==>
                  (h in after <==> h in tokens) && (h in tokens ==> after[h] == tokens[h]))
  {
  }

  /** A refresh, case by case: the old token must be good, and its owner must still exist. */
  lemma RefreshedExactly(tokens: RefreshTokens, users: Users, token: nat, newToken: nat, now: Time)
    ensures var (after, r) := Refreshed(tokens, users, token, newToken, now);
            var (h, h') := (Sha256(token), Sha256(newToken));
            if !(h in tokens && tokens[h].revokedAt == None && now < tokens[h].expiresAt) then
              r == Err(BadRequest) && after == tokens
            else
              var spent := tokens[h := tokens[h].(revokedAt := Some(now))];
              if tokens[h].userId !in users then r == Err(NotFound) && after == spent
              else
                && r == Ok(newToken)
                && after == spent[h' := RefreshRecord(tokens[h].userId, now + 2_592_000_000_000_000, None, now)]
  {
  }

  /** A refresh token is good for thirty days from its issue, a reset token for an hour, to the nanosecond. */
  lemma TokenLifetimes(
    refresh: RefreshTokens, reset: ResetTokens, h: TokenHash, userId: UserId, issued: Time, now: Time)
    ensures var issuedTo := refresh[h := RefreshRecord(userId, issued + REFRESH_LIFETIME, None, issued)];
            Redeem(issuedTo, h, now).1 == if now < issued + 30 * 24 * 3600 * 1_000_000_000 then Some(userId) else None
    ensures var sentTo := reset[h := ResetRecord(userId, issued + RESET_LIFETIME, None, issued)];
            Consume(sentTo, h, now).1 == if now < issued + 3600 * 1_000_000_000 then Some(userId) else None
  {
  }

  class Service {
    const repo: InMemoryUserRepository

    constructor (repo: InMemoryUserRepository)
      ensures this.repo == repo
    {
      this.repo := repo;
    }

    method GenerateAuthResponse(userId: UserId, newToken: nat, now: Time) returns (token: nat)
      modifies repo`refreshTokens
      ensures token == newToken
      ensures repo.refreshTokens ==
              old(repo.refreshTokens)[Sha256(newToken) := RefreshRecord(userId, now + REFRESH_LIFETIME, None, now)]
    {
      repo.StoreRefreshToken(userId, Sha256(newToken), now + REFRESH_LIFETIME, now);
      token := newToken;
    }

    /**
      Succeeds only for a user whose name or address the login is and who has that password, and fails only if there
      is no such user or somebody who goes by the login has another password; the two exclude each other unless one
      user's name is another's address.
     */
    method Login(login: string, password: string, newToken: nat, now: Time)
      returns (user: Option<User>, r: Result<nat, AuthError>)
      modifies repo`refreshTokens
      ensures user.Some? ==> NamedBy(user.value, login) && IsStored(repo.users, user.value)
      ensures user.None? ==> forall i | i in repo.users :: !NamedBy(repo.users[i], login)
      ensures r == if user.Some? && user.value.passwordHash == Argon2(password) then Ok(newToken) else Err(BadRequest)
      ensures repo.refreshTokens ==
              if r.Ok? then
                old(repo.refreshTokens)[
                  Sha256(newToken) := RefreshRecord(user.value.id, now + REFRESH_LIFETIME, None, now)]
              else old(repo.refreshTokens)
    {
      user := repo.FindByUsernameOrEmail(Lower(Trim(login)));
      forall u: User
        ensures AnswersTo(u, Lower(Trim(login))) <==> NamedBy(u, login)
      {
        CleanedTwice(u, login);
      }
      if user.None? {
        return user, Err(BadRequest);
      }
      var isValid := user.value.passwordHash == Argon2(password);
      if !isValid {
        return user, Err(BadRequest);
      }
      var token := GenerateAuthResponse(user.value.id, newToken, now);
      r := Ok(token);
    }

    method Refresh(token: nat, newToken: nat, now: Time) returns (r: Result<nat, AuthError>)
      modifies repo`refreshTokens
      ensures repo.refreshTokens == Refreshed(old(repo.refreshTokens), repo.users, token, newToken, now).0
      ensures r == Refreshed(old(repo.refreshTokens), repo.users, token, newToken, now).1
    {
      var owner := repo.ValidateAndRevokeRefreshToken(Sha256(token), now);
      if owner.None? {
        return Err(BadRequest);
      }
      if owner.value !in repo.users {
        return Err(NotFound);
      }
      var issued := GenerateAuthResponse(owner.value, newToken, now);
      r := Ok(issued);
    }

    /**
      A known name or address gets a reset token for an hour, shown in development only; the reply tells nobody else.
     */
    method ForgotPassword(email: string, newToken: nat, now: Time, isDevelopment: bool) returns (devToken: Option<nat>)
      modifies repo`resetTokens
      ensures var known := exists i | i in repo.users :: NamedBy(repo.users[i], email);
              && (devToken == if known && isDevelopment then Some(newToken) else None)
              && (!known ==> repo.resetTokens == old(repo.resetTokens))
              && (known ==>
                    exists user: User ::
                      && IsStored(repo.users, user)
                      && NamedBy(user, email)
                      && repo.resetTokens ==
                         old(repo.resetTokens)[
                           Sha256(newToken) := ResetRecord(user.id, now + 3_600_000_000_000, None, now)])
    {
      var user := repo.FindByUsernameOrEmail(Lower(Trim(email)));
      forall u: User
        ensures AnswersTo(u, Lower(Trim(email))) <==> NamedBy(u, email)
      {
        CleanedTwice(u, email);
      }
      devToken := None;
      if user.Some? {
        repo.StorePasswordResetToken(user.value.id, Sha256(newToken), now + RESET_LIFETIME, now);
        if isDevelopment {
          devToken := Some(newToken);
        }
      }
    }

    method Logout(userId: UserId, now: Time)
      modifies repo`refreshTokens
      ensures repo.refreshTokens == RevokeAll(old(repo.refreshTokens), userId, now)
    {
      repo.RevokeAllUserRefreshTokens(userId, now);
    }

    /** A short password is refused before the reset token is touched. */
    method ResetPassword(token: nat, newPassword: string, now: Time) returns (r: Result<(), AuthError>)
      modifies repo
      ensures var (consumed, owner) := Consume(old(repo.resetTokens), Sha256(token), now);
              if |newPassword| < 8 then
                && r == Err(BadRequest)
                && repo.resetTokens == old(repo.resetTokens) && repo.refreshTokens == old(repo.refreshTokens)
                && repo.users == old(repo.users)
              else if owner.None? then
                && r == Err(BadRequest)
                && repo.resetTokens == old(repo.resetTokens) && repo.refreshTokens == old(repo.refreshTokens)
                && repo.users == old(repo.users)
              else
                && r == Ok(())
                && repo.resetTokens == consumed
                && repo.refreshTokens == RevokeAll(old(repo.refreshTokens), owner.value, now)
                && repo.users == if owner.value in old(repo.users)
                                 then old(repo.users)[owner.value :=
                                        old(repo.users)[owner.value].(passwordHash := Argon2(newPassword),
                                                                      updatedAt := now)]
                                 else old(repo.users)
    {
      if |newPassword| < 8 {
        return Err(BadRequest);
      }
      var owner := repo.ValidateAndConsumeResetToken(Sha256(token), now);
      if owner.None? {
        return Err(BadRequest);
      }
      repo.UpdatePasswordHash(owner.value, Argon2(newPassword), now);
      repo.RevokeAllUserRefreshTokens(owner.value, now);
      r := Ok(());
    }
  }
}

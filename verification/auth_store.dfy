/**
  The in-memory user and token store of services/api/src/auth/repository.rs.  Token digests and password hashes are
  injective by construction.
 */
module AuthStore {
  import opened Wrappers
  import opened Text
  import opened PaymentIntents

  type UserId = nat

  datatype TokenHash = Sha256(token: nat)

  datatype PasswordHash = Argon2(password: string)

  datatype User = User(id: UserId, username: string, email: string, passwordHash: PasswordHash, updatedAt: Time)

  datatype RefreshRecord = RefreshRecord(userId: UserId, expiresAt: Time, revokedAt: Option<Time>, createdAt: Time)

  datatype ResetRecord = ResetRecord(userId: UserId, expiresAt: Time, usedAt: Option<Time>, createdAt: Time)

  type Users = map<UserId, User>
  type RefreshTokens = map<TokenHash, RefreshRecord>
  type ResetTokens = map<TokenHash, ResetRecord>

  // ---------------------------------------------------------------- token operations

  predicate IsRedeemable(tokens: RefreshTokens, h: TokenHash, now: Time) {
    h in tokens && tokens[h].revokedAt.None? && tokens[h].expiresAt > now
  }

  /** Validate and revoke in one atomic step. */
  function Redeem(tokens: RefreshTokens, h: TokenHash, now: Time): (RefreshTokens, Option<UserId>) {
    if IsRedeemable(tokens, h, now) then (tokens[h := tokens[h].(revokedAt := Some(now))], Some(tokens[h].userId))
    else (tokens, None)
  }

  function RevokedRecord(r: RefreshRecord, userId: UserId, now: Time): RefreshRecord {
    if r.userId == userId && r.revokedAt.None? then r.(revokedAt := Some(now)) else r
  }

  function RevokeAll(tokens: RefreshTokens, userId: UserId, now: Time): RefreshTokens {
    map h | h in tokens :: RevokedRecord(tokens[h], userId, now)
  }

  function Consume(tokens: ResetTokens, h: TokenHash, now: Time): (ResetTokens, Option<UserId>) {
    if h in tokens && tokens[h].usedAt.None? && tokens[h].expiresAt > now then
      (tokens[h := tokens[h].(usedAt := Some(now))], Some(tokens[h].userId))
    else (tokens, None)
  }

  /**
    A refresh token is redeemed exactly while it is known, not revoked and strictly before its expiry, for its owner.
   */
  lemma RedeemExactly(tokens: RefreshTokens, h: TokenHash, now: Time)
    ensures var (after, owner) := Redeem(tokens, h, now);
            if h in tokens && tokens[h].revokedAt == None && now < tokens[h].expiresAt then
              && owner == Some(tokens[h].userId)
              && after == tokens[h := RefreshRecord(tokens[h].userId, tokens[h].expiresAt, Some(now),
                                                    tokens[h].createdAt)]
            else owner == None && after == tokens
  {
  }

  /** A reset token likewise. */
  lemma ConsumeExactly(tokens: ResetTokens, h: TokenHash, now: Time)
    ensures var (after, owner) := Consume(tokens, h, now);
            if h in tokens && tokens[h].usedAt == None && now < tokens[h].expiresAt then
              && owner == Some(tokens[h].userId)
              && after == tokens[h := ResetRecord(tokens[h].userId, tokens[h].expiresAt, Some(now),
                                                  tokens[h].createdAt)]
            else owner == None && after == tokens
  {
  }

  /** After a redemption the token can never be redeemed again, whatever the clock says. */
  lemma RedeemedOnce(tokens: RefreshTokens, h: TokenHash, now: Time, later: Time)
    requires Redeem(tokens, h, now).1.Some?
    ensures Redeem(Redeem(tokens, h, now).0, h, later) == (Redeem(tokens, h, now).0, None)
  {
  }

  /** Revoking all tokens of a user leaves none of them redeemable and no other user's token touched. */
  lemma RevokeAllExactly(tokens: RefreshTokens, userId: UserId, now: Time, h: TokenHash, later: Time)
    ensures IsRedeemable(RevokeAll(tokens, userId, now), h, later) <==>
            IsRedeemable(tokens, h, later) && tokens[h].userId != userId
    ensures h in tokens ==>
              && h in RevokeAll(tokens, userId, now)
              && RevokeAll(tokens, userId, now)[h] ==
                 if tokens[h].userId == userId && tokens[h].revokedAt == None
                 then tokens[h].(revokedAt := Some(now)) else tokens[h]
  {
  }

  // ---------------------------------------------------------------- users

  /** No two users share a user name or an address, ignoring case. */
  ghost predicate UniqueUsers(users: Users) {
    forall i, j | i in users && j in users && i != j ::
      !EqIgnoreCase(users[i].username, users[j].username) && !EqIgnoreCase(users[i].email, users[j].email)
  }

  ghost predicate IsStored(users: Users, user: User) {
    exists i | i in users :: users[i] == user
  }

  function CleanLogin(login: string): string {
    Lower(StripAllAts(Trim(login)))
  }

  /** The user goes by this login name or address. */
  predicate AnswersTo(user: User, login: string) {
    Lower(user.username) == CleanLogin(login) || Lower(user.email) == CleanLogin(login)
  }

  // ---------------------------------------------------------------- what a login names

  /** The login is the name or address `core`, up to surrounding white space and leading signs. */
  predicate IsLoginFor(login: string, pre: string, ats: string, core: string, post: string) {
    && login == pre + ats + core + post
    && IsBlank(pre) && AllAts(ats) && IsBlank(post)
    && (core != "" ==> core[0] != '@') && HasEnds(ats + core)
  }

  /** The user's name or address is what the login comes to, ignoring case. */
  ghost predicate NamedBy(user: User, login: string) {
    exists pre, ats, core, post ::
      IsLoginFor(login, pre, ats, core, post) && (EqIgnoreCase(user.username, core) || EqIgnoreCase(user.email, core))
  }

  lemma LowerTwice(s: string)
    ensures Lower(Lower(s)) == Lower(s)
  {
  }

  lemma CleanLoginOf(login: string, pre: string, ats: string, core: string, post: string)
    requires IsLoginFor(login, pre, ats, core, post)
    ensures Trim(login) == ats + core && CleanLogin(login) == Lower(core)
  {
    assert login == pre + (ats + core) + post;
    TrimExactly(pre, ats + core, post);
    StripExactly(ats, core);
  }

  lemma {:induction false} AtsSplit(s: string) returns (ats: string, core: string)
    ensures s == ats + core && AllAts(ats) && (core != "" ==> core[0] != '@')
  {
    if s == "" || s[0] != '@' {
      ats, core := "", s;
    } else {
      ats, core := AtsSplit(s[1..]);
      ats := "@" + ats;
    }
  }

  lemma LoginSplits(login: string) returns (pre: string, ats: string, core: string, post: string)
    ensures IsLoginFor(login, pre, ats, core, post)
  {
    var middle;
    pre, middle, post := TrimSplits(login);
    ats, core := AtsSplit(middle);
    assert pre + middle + post == pre + ats + core + post;
  }

  /** Users answer to exactly the logins that name them: by user name and by address alike. */
  lemma AnswersToExactly(user: User, login: string)
    ensures AnswersTo(user, login) <==> NamedBy(user, login)
  {
    var pre, ats, core, post := LoginSplits(login);
    CleanLoginOf(login, pre, ats, core, post);
    if NamedBy(user, login) {
      var pre', ats', core', post' :| IsLoginFor(login, pre', ats', core', post') &&
                                      (EqIgnoreCase(user.username, core') || EqIgnoreCase(user.email, core'));
      CleanLoginOf(login, pre', ats', core', post');
    }
  }

  /** In particular a login without white space and signs names whoever has it as user name or address. */
  lemma PlainLogin(user: User, login: string)
    requires HasEnds(login) && (login != "" ==> login[0] != '@')
    ensures AnswersTo(user, login) <==> EqIgnoreCase(user.username, login) || EqIgnoreCase(user.email, login)
  {
    assert "" + "" + login + "" == login;
    assert IsLoginFor(login, "", "", login, "");
    CleanLoginOf(login, "", "", login, "");
  }

  lemma LowerKeepsEnds(s: string)
    requires HasEnds(s)
    ensures HasEnds(Lower(s))
  {
    if s != "" {
      assert Lower(s)[..1] == [LowerChar(s[0])] && Lower(s)[|s| - 1..] == [LowerChar(s[|s| - 1])];
      assert s[..1] == [s[0]] && s[|s| - 1..] == [s[|s| - 1]];
      BlankCharacter(s[0]);
      BlankCharacter(s[|s| - 1]);
      BlankCharacter(LowerChar(s[0]));
      BlankCharacter(LowerChar(s[|s| - 1]));
    }
  }

  /** The service trims and lowers the login before the repository does so again; it comes to the same. */
  lemma CleanedTwice(user: User, login: string)
    ensures AnswersTo(user, Lower(Trim(login))) <==> NamedBy(user, login)
  {
    var pre, ats, core, post := LoginSplits(login);
    CleanLoginOf(login, pre, ats, core, post);
    LowerKeepsEnds(ats + core);
    assert Lower(ats + core) == ats + Lower(core);
    assert "" + ats + Lower(core) + "" == Lower(ats + core);
    assert IsLoginFor(Lower(Trim(login)), "", ats, Lower(core), "");
    CleanLoginOf(Lower(Trim(login)), "", ats, Lower(core), "");
    LowerTwice(core);
    AnswersToExactly(user, login);
  }

  class InMemoryUserRepository {
    var users: Users
    var refreshTokens: RefreshTokens
    var resetTokens: ResetTokens

    constructor ()
      ensures users == map[] && refreshTokens == map[] && resetTokens == map[]
    {
      users, refreshTokens, resetTokens := map[], map[], map[];
    }

    /** Refuses exactly the users that clash with a stored one, and so keeps names and addresses unique. */
    method CreateUser(user: User) returns (created: bool)
      requires UniqueUsers(users) && user.id !in users
      modifies this`users
      ensures created <==> forall i | i in old(users) ::
                !EqIgnoreCase(old(users)[i].username, user.username) && !EqIgnoreCase(old(users)[i].email, user.email)
      ensures users == if created then old(users)[user.id := user] else old(users)
      ensures UniqueUsers(users)
    {
      var remaining := users.Keys;
      while remaining != {}
        invariant remaining <= users.Keys && users == old(users)
        invariant forall i | i in users && i !in remaining ::
                    !EqIgnoreCase(users[i].username, user.username) && !EqIgnoreCase(users[i].email, user.email)
        decreases remaining
      {
        var i :| i in remaining;
        if EqIgnoreCase(users[i].username, user.username) {
          return false;
        }
        if EqIgnoreCase(users[i].email, user.email) {
          return false;
        }
        remaining := remaining - {i};
      }
      users := users[user.id := user];
      return true;
    }

    /**
      Finds some user who answers to the login, in whatever order the map is walked, or establishes that nobody does.
     */
    method FindByUsernameOrEmail(login: string) returns (found: Option<User>)
      ensures found.Some? ==>
                AnswersTo(found.value, login) && NamedBy(found.value, login) && IsStored(users, found.value)
      ensures found.None? ==> forall i | i in users :: !AnswersTo(users[i], login) && !NamedBy(users[i], login)
    {
      var clean := CleanLogin(login);
      var remaining := users.Keys;
      while remaining != {}
        invariant remaining <= users.Keys
        invariant forall i | i in users && i !in remaining :: !AnswersTo(users[i], login) && !NamedBy(users[i], login)
        decreases remaining
      {
        var i :| i in remaining;
        AnswersToExactly(users[i], login);
        if Lower(users[i].username) == clean || Lower(users[i].email) == clean {
          return Some(users[i]);
        }
        remaining := remaining - {i};
      }
      return None;
    }

    method UpdatePasswordHash(userId: UserId, newHash: PasswordHash, now: Time)
      modifies this`users
      ensures users == if userId in old(users)
                       then old(users)[userId := old(users)[userId].(passwordHash := newHash, updatedAt := now)]
                       else old(users)
    {
      if userId in users {
        users := users[userId := users[userId].(passwordHash := newHash, updatedAt := now)];
      }
    }

    method StoreRefreshToken(userId: UserId, h: TokenHash, expiresAt: Time, now: Time)
      modifies this`refreshTokens
      ensures refreshTokens == old(refreshTokens)[h := RefreshRecord(userId, expiresAt, None, now)]
    {
      refreshTokens := refreshTokens[h := RefreshRecord(userId, expiresAt, None, now)];
    }

    method ValidateAndRevokeRefreshToken(h: TokenHash, now: Time) returns (r: Option<UserId>)
      modifies this`refreshTokens
      ensures refreshTokens == Redeem(old(refreshTokens), h, now).0
      ensures r == Redeem(old(refreshTokens), h, now).1
    {
      if h in refreshTokens {
        var record := refreshTokens[h];
        if record.revokedAt.None? && record.expiresAt > now {
          refreshTokens := refreshTokens[h := record.(revokedAt := Some(now))];
          return Some(record.userId);
        }
      }
      return None;
    }

    method RevokeAllUserRefreshTokens(userId: UserId, now: Time)
      modifies this`refreshTokens
      ensures refreshTokens == RevokeAll(old(refreshTokens), userId, now)
    {
      var remaining := refreshTokens.Keys;
      while remaining != {}
        invariant remaining <= refreshTokens.Keys == old(refreshTokens).Keys
        invariant forall h | h in refreshTokens ::
                    refreshTokens[h] == if h in remaining then old(refreshTokens)[h]
                                        else RevokedRecord(old(refreshTokens)[h], userId, now)
        decreases remaining
      {
        var h :| h in remaining;
        var record := refreshTokens[h];
        if record.userId == userId && record.revokedAt.None? {
          refreshTokens := refreshTokens[h := record.(revokedAt := Some(now))];
        }
        remaining := remaining - {h};
      }
    }

    method StorePasswordResetToken(userId: UserId, h: TokenHash, expiresAt: Time, now: Time)
      modifies this`resetTokens
      ensures resetTokens == old(resetTokens)[h := ResetRecord(userId, expiresAt, None, now)]
    {
      resetTokens := resetTokens[h := ResetRecord(userId, expiresAt, None, now)];
    }

    method ValidateAndConsumeResetToken(h: TokenHash, now: Time) returns (r: Option<UserId>)
      modifies this`resetTokens
      ensures resetTokens == Consume(old(resetTokens), h, now).0
      ensures r == Consume(old(resetTokens), h, now).1
    {
      if h in resetTokens {
        var record := resetTokens[h];
        if record.usedAt.None? && record.expiresAt > now {
          resetTokens := resetTokens[h := record.(usedAt := Some(now))];
          return Some(record.userId);
        }
      }
      return None;
    }
  }
}

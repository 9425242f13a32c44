/** The credential operations of backend/iam/store.go and the two grants of handlers.go, each by itself. */
module IamStore {
  import opened Wrappers
  import opened Schema
  import opened StoreOps
  import CodeGrants
  import RefreshChains

  datatype Consumed = Accepted(row: AuthCode) | UnknownCode | AlreadyUsed | Expired

  /** The code can be spent: it is the tenant's, unused and not expired. */
  predicate Spendable(codes: map<Id, AuthCode>, tid: Id, code: Id, now: Time) {
    code in codes && codes[code].tenantId == tid && !codes[code].used && now < codes[code].expiresAt
  }

  /** One compare-and-set UPDATE decides; the SELECT after a failure only explains it. */
  method ConsumeAuthCode(db: Database, tid: Id, code: Id, now: Time) returns (result: Consumed)
    modifies db
    ensures result.Accepted? <==> Spendable(old(db.tables).authCodes, tid, code, now)
    ensures result.Accepted? ==>
      && result.row == old(db.tables).authCodes[code].(used := true)
      && db.tables == old(db.tables).(authCodes := old(db.tables).authCodes[code := result.row])
    ensures !result.Accepted? ==> db.tables == old(db.tables)
    ensures result.UnknownCode? <==>
      code !in old(db.tables).authCodes || old(db.tables).authCodes[code].tenantId != tid
    ensures result.AlreadyUsed? ==> old(db.tables).authCodes[code].used
    ensures result.Expired? ==> !old(db.tables).authCodes[code].used && old(db.tables).authCodes[code].expiresAt <= now
  {
    hide ExecTenancy, ExecUser, ExecContact, ExecSegment, ExecCampaign, ExecRecipient;
    var accepted := CodeAccepted(db.tables, tid, code, now);
    db.tables := After(db.tables, UseAuthCode(tid, code, now));
    if accepted {
      return Accepted(db.tables.authCodes[code]);
    }
    if code !in db.tables.authCodes || db.tables.authCodes[code].tenantId != tid {
      return UnknownCode;
    }
    return if db.tables.authCodes[code].used then AlreadyUsed else Expired;
  }

  /**
   * A code that was presented in time is spent whether or not the other checks pass: the client and redirect URI of the
   * code, the preimage of its S256 challenge or, without one, the secret of its client, and that its user is still
   * there.
   */
  method TokenAuthorizationCode(db: Database, crypto: CodeGrants.Crypto, t: CodeGrants.TokenRequest, refresh: Id,
                                now: Time)
    returns (issued: bool)
    requires refresh !in db.tables.refreshTokens
    modifies db
    ensures issued ==>
      && t.code in old(db.tables).authCodes
      && var row := old(db.tables).authCodes[t.code];
         && row.tenantId == t.tid && !row.used && now < row.expiresAt
         && (t.clientId == "" || t.clientId == row.clientId) && t.redirectUri == row.redirectUri
    ensures issued <==>
      && Spendable(old(db.tables).authCodes, t.tid, t.code, now)
      && var was, row := old(db.tables), old(db.tables).authCodes[t.code];
         && (t.clientId == "" || t.clientId == row.clientId) && t.redirectUri == row.redirectUri
         && (row.codeChallenge != "" ==>
               && t.verifier != "" && row.codeChallengeMethod == "S256"
               && crypto.s256(t.verifier) == row.codeChallenge)
         && (row.codeChallenge == "" ==>
               && t.secret != "" && row.clientId in was.clients && was.clients[row.clientId].tenantId == t.tid
               && crypto.matches(was.clients[row.clientId].secretHash, t.secret))
         && row.userId in was.users && was.users[row.userId].tenantId == t.tid
    ensures Spendable(old(db.tables).authCodes, t.tid, t.code, now) ==>
      var row := old(db.tables).authCodes[t.code];
      db.tables == old(db.tables).(
        authCodes := old(db.tables).authCodes[t.code := row.(used := true)],
        refreshTokens :=
          if issued then
            old(db.tables).refreshTokens[
              refresh := RefreshToken(t.tid, row.clientId, row.userId, row.scope, now + 30 * 24 * 3600, false)]
          else old(db.tables).refreshTokens)
    ensures !Spendable(old(db.tables).authCodes, t.tid, t.code, now) ==> db.tables == old(db.tables)
  {
    var consumed := ConsumeAuthCode(db, t.tid, t.code, now);
    if !consumed.Accepted? {
      return false;
    }
    var row := consumed.row;
    if t.clientId != "" && t.clientId != row.clientId {
      return false;
    }
    if t.redirectUri != row.redirectUri {
      return false;
    }
    if row.codeChallenge != "" {
      if t.verifier == "" || row.codeChallengeMethod != "S256" || crypto.s256(t.verifier) != row.codeChallenge {
        return false;
      }
    } else if t.secret != "" {
      var hash := CodeGrants.ClientHash(db.tables, t.tid, row.clientId);
      if hash.None? || !crypto.matches(hash.value, t.secret) {
        return false;
      }
    } else {
      return false;
    }
    if row.userId !in Scoped(db.tables.users, t.tid) {
      return false;
    }
    var token := RefreshToken(t.tid, row.clientId, row.userId, row.scope, now + CodeGrants.REFRESH_TTL, false);
    RefreshChains.CreateIs(db.tables, refresh, token);
    hide After;
    db.tables := After(db.tables, CreateRefreshToken(refresh, token));
    return true;
  }

  /** The refresh token can be used: it is the tenant's, not revoked and not expired. */
  predicate Refreshable(tokens: map<Id, RefreshToken>, tid: Id, token: Id, now: Time) {
    token in tokens && tokens[token].tenantId == tid && !tokens[token].revoked && now <= tokens[token].expiresAt
  }

  /** tokenRefreshToken: the old token is revoked before the user is looked up. */
  method TokenRefreshToken(db: Database, tid: Id, token: Id, next: Id, now: Time) returns (issued: bool)
    modifies db
    ensures issued <==>
      && Refreshable(old(db.tables).refreshTokens, tid, token, now) && next !in old(db.tables).refreshTokens
      && var u := old(db.tables).refreshTokens[token].userId;
         u in old(db.tables).users && old(db.tables).users[u].tenantId == tid
    ensures Refreshable(old(db.tables).refreshTokens, tid, token, now) ==>
      var row := old(db.tables).refreshTokens[token];
      var revoked := old(db.tables).refreshTokens[token := row.(revoked := true)];
      db.tables == old(db.tables).(refreshTokens :=
        if issued then
          revoked[next := RefreshToken(tid, row.clientId, row.userId, row.scope, now + 30 * 24 * 3600, false)]
        else revoked)
    ensures !Refreshable(old(db.tables).refreshTokens, tid, token, now) ==> db.tables == old(db.tables)
    ensures next !in old(db.tables).refreshTokens ==> issued == RefreshChains.Rotates(old(db.tables), tid, token, now)
    ensures db.tables == RefreshChains.Refreshed(old(db.tables), tid, token, next, now)
  {
    if !RefreshChains.Usable(db.tables, tid, token, now) {
      return false;
    }
    RefreshChains.RevokeIs(db.tables, tid, token);
    var row := db.tables.refreshTokens[token];
    db.tables := After(db.tables, RevokeRefreshToken(tid, token));
    if row.userId !in Scoped(db.tables.users, tid) {
      return false;
    }
    var create := CreateRefreshToken(next, RefreshChains.NewToken(RefreshChains.GrantOf(row), now));
    hide ExecTenancy, ExecUser, ExecContact, ExecSegment, ExecCampaign, ExecRecipient;
    var created := Exec(db.tables, create);
    db.tables := After(db.tables, create);
    return created.Some?;
  }

  /** The user has this token and it has not expired. */
  predicate HasReset(u: User, token: Id, now: Time) {
    match u.reset
    case None => false
    case Some(reset) => reset.token == token && now < reset.expiresAt
  }

  /** ConsumeResetToken with nothing between the lookup and the update. */
  method ConsumeResetToken(db: Database, tid: Id, token: Id, hash: string, now: Time) returns (userId: Option<Id>)
    modifies db
    ensures userId.Some? ==>
      && userId.value in old(db.tables).users && old(db.tables).users[userId.value].tenantId == tid
      && HasReset(old(db.tables).users[userId.value], token, now)
      && db.tables == old(db.tables).(users := old(db.tables).users[
           userId.value := old(db.tables).users[userId.value].(passwordHash := hash, reset := None)])
    ensures userId.None? ==>
      && db.tables == old(db.tables)
      && forall u :: u in db.tables.users && db.tables.users[u].tenantId == tid ==>
           !HasReset(db.tables.users[u], token, now)
  {
    hide ExecTenancy, ExecToken, ExecContact, ExecSegment, ExecCampaign, ExecRecipient;
    if u :| u in Scoped(db.tables.users, tid) && Resettable(db.tables.users[u], token, now) {
      db.tables := After(db.tables, SpendResetToken(tid, u, token, hash));
      return Some(u);
    }
    return None;
  }

  predicate Resettable(u: User, token: Id, now: Time) {
    u.reset.Some? && u.reset.value.token == token && now < u.reset.value.expiresAt
  }
}

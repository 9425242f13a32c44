/**
 * Refresh token rotation (RFC 6749 section 6, RFC 7009 section 2): each token request and each revocation of
 * backend/iam/handlers.go is one step, every other operation of the stores may happen in between. A login or a code
 * grant starts a chain, and every refresh of its last token adds one.
 */
module RefreshChains {
  import opened Wrappers
  import opened Schema
  import opened StoreOps
  import opened TokenFrames

  datatype Grant = Grant(tid: Id, clientId: Id, userId: Id, scope: string)

  datatype Chain = Chain(grant: Grant, tokens: seq<Id>)

  datatype Sessions = Sessions(db: Tables, chains: seq<Chain>, given: set<Id>)

  datatype Request =
    | Handle(op: Op)
    | Start(grant: Grant, token: Id, now: Time)
    | Refresh(tid: Id, token: Id, next: Id, now: Time)
    | Revoke(tid: Id, token: Id)

  const REFRESH_TTL := 30 * 24 * 3600

  function GrantOf(row: RefreshToken): Grant {
    Grant(row.tenantId, row.clientId, row.userId, row.scope)
  }

  function NewToken(g: Grant, now: Time): RefreshToken {
    RefreshToken(g.tid, g.clientId, g.userId, g.scope, now + REFRESH_TTL, false)
  }

  /** ValidateRefreshToken. */
  predicate Usable(db: Tables, tid: Id, token: Id, now: Time) {
    && token in db.refreshTokens && db.refreshTokens[token].tenantId == tid
    && !db.refreshTokens[token].revoked && now <= db.refreshTokens[token].expiresAt
  }

  predicate Live(db: Tables, token: Id) {
    token in db.refreshTokens && !db.refreshTokens[token].revoked
  }

  /** The tables after tokenRefreshToken; the old token is gone even if its user is. */
  function Refreshed(db: Tables, tid: Id, token: Id, next: Id, now: Time): Tables {
    if !Usable(db, tid, token, now) then db
    else
      var row := db.refreshTokens[token];
      var revoked := After(db, RevokeRefreshToken(tid, token));
      if row.userId in Scoped(db.users, tid) then After(revoked, CreateRefreshToken(next, NewToken(GrantOf(row), now)))
      else revoked
  }

  predicate Rotates(db: Tables, tid: Id, token: Id, now: Time) {
    Usable(db, tid, token, now) && db.refreshTokens[token].userId in Scoped(db.users, tid)
  }

  function Extended(c: Chain, token: Id, next: Id): Chain {
    if c.tokens != [] && c.tokens[|c.tokens| - 1] == token then c.(tokens := c.tokens + [next]) else c
  }

  function Step(s: Sessions, r: Request): Option<Sessions> {
    match r
    case Handle(op) =>
      if op.CreateRefreshToken? || op.RevokeRefreshToken? then None else Some(s.(db := After(s.db, op)))
    case Start(grant, token, now) =>
      if token in s.given then None
      else Some(Sessions(After(s.db, CreateRefreshToken(token, NewToken(grant, now))),
                         s.chains + [Chain(grant, [token])], s.given + {token}))
    case Refresh(tid, token, next, now) =>
      if next in s.given then None
      else if Rotates(s.db, tid, token, now) then
        Some(Sessions(Refreshed(s.db, tid, token, next, now),
                      seq(|s.chains|, i requires 0 <= i < |s.chains| => Extended(s.chains[i], token, next)),
                      s.given + {next}))
      else Some(s.(db := Refreshed(s.db, tid, token, next, now)))
    case Revoke(tid, token) => Some(s.(db := After(s.db, RevokeRefreshToken(tid, token))))
  }

  function Run(s: Sessions, rs: seq<Request>): Option<Sessions> {
    if rs == [] then Some(s)
    else
      match Run(s, rs[..|rs| - 1])
      case None => None
      case Some(t) => Step(t, rs[|rs| - 1])
  }

  predicate Init(s: Sessions) {
    s.db.refreshTokens == map[] && s.chains == [] && s.given == {}
  }

  // --- The invariant ---

  predicate InChain(c: Chain, token: Id) {
    token in c.tokens
  }

  /** Only the last token of the chain can be live, and all its rows belong to the same grant. */
  ghost predicate ChainOk(rows: map<Id, RefreshToken>, c: Chain) {
    && c.tokens != []
    && (forall j :: 0 <= j < |c.tokens| && c.tokens[j] in rows ==>
          GrantOf(rows[c.tokens[j]]) == c.grant && (j < |c.tokens| - 1 ==> rows[c.tokens[j]].revoked))
    && (forall j, k :: 0 <= j < k < |c.tokens| ==> c.tokens[j] != c.tokens[k])
  }

  ghost predicate Inv(s: Sessions) {
    && (forall i :: 0 <= i < |s.chains| ==> ChainOk(s.db.refreshTokens, s.chains[i]))
    && (forall i, t :: 0 <= i < |s.chains| && InChain(s.chains[i], t) ==> t in s.given)
    && (forall i, j, t :: 0 <= i < j < |s.chains| && InChain(s.chains[i], t) ==> !InChain(s.chains[j], t))
    && (forall t :: t in s.db.refreshTokens ==> exists i :: 0 <= i < |s.chains| && InChain(s.chains[i], t))
  }

  lemma CreateIs(db: Tables, token: Id, row: RefreshToken)
    requires token !in db.refreshTokens
    ensures After(db, CreateRefreshToken(token, row)) == db.(refreshTokens := db.refreshTokens[token := row])
  {
  }

  function RevokedRows(rows: map<Id, RefreshToken>, tid: Id, token: Id): map<Id, RefreshToken> {
    if token in rows && rows[token].tenantId == tid then rows[token := rows[token].(revoked := true)] else rows
  }

  lemma RevokeIs(db: Tables, tid: Id, token: Id)
    ensures After(db, RevokeRefreshToken(tid, token)) == db.(refreshTokens := RevokedRows(db.refreshTokens, tid, token))
  {
  }

  lemma RefreshIs(db: Tables, tid: Id, token: Id, next: Id, now: Time)
    requires Usable(db, tid, token, now) && next !in db.refreshTokens
    ensures
      var rows := RevokedRows(db.refreshTokens, tid, token);
      Refreshed(db, tid, token, next, now) ==
      db.(refreshTokens :=
            if Rotates(db, tid, token, now) then rows[next := NewToken(GrantOf(db.refreshTokens[token]), now)]
            else rows)
  {
    RevokeIs(db, tid, token);
    var revoked := After(db, RevokeRefreshToken(tid, token));
    assert next !in revoked.refreshTokens;
    CreateIs(revoked, next, NewToken(GrantOf(db.refreshTokens[token]), now));
    hide After, Scoped;
  }

  /** Rows may be revoked or go; the chain stays in order. */
  lemma ChainWanes(rows: map<Id, RefreshToken>, fewer: map<Id, RefreshToken>, c: Chain)
    requires ChainOk(rows, c)
    requires forall t :: t in fewer ==> t in rows && fewer[t] == rows[t].(revoked := fewer[t].revoked)
                                        && (rows[t].revoked ==> fewer[t].revoked)
    ensures ChainOk(fewer, c)
  {
  }

  lemma WaneKeeps(s: Sessions, db: Tables)
    requires Inv(s)
    requires forall t :: t in db.refreshTokens ==>
      && t in s.db.refreshTokens
      && db.refreshTokens[t] == s.db.refreshTokens[t].(revoked := db.refreshTokens[t].revoked)
      && (s.db.refreshTokens[t].revoked ==> db.refreshTokens[t].revoked)
    ensures Inv(s.(db := db))
  {
    hide ChainOk, InChain;
    forall i | 0 <= i < |s.chains|
      ensures ChainOk(db.refreshTokens, s.chains[i])
    {
      ChainWanes(s.db.refreshTokens, db.refreshTokens, s.chains[i]);
    }
  }

  lemma HandleKeeps(s: Sessions, op: Op)
    requires Inv(s) && !op.CreateRefreshToken? && !op.RevokeRefreshToken?
    ensures Inv(s.(db := After(s.db, op)))
  {
    hide After, Inv;
    forall t | t in After(s.db, op).refreshTokens
      ensures t in s.db.refreshTokens && After(s.db, op).refreshTokens[t] == s.db.refreshTokens[t]
    {
      RefreshFramed(s.db, op, t);
    }
    WaneKeeps(s, After(s.db, op));
  }

  lemma RevokeKeeps(s: Sessions, tid: Id, token: Id)
    requires Inv(s)
    ensures Inv(s.(db := After(s.db, RevokeRefreshToken(tid, token))))
  {
    hide Inv;
    RevokeIs(s.db, tid, token);
    hide After;
    WaneKeeps(s, After(s.db, RevokeRefreshToken(tid, token)));
  }

  lemma TokensGiven(s: Sessions)
    requires Inv(s)
    ensures s.db.refreshTokens.Keys <= s.given
  {
    hide ChainOk, InChain;
  }

  lemma StartKeeps(s: Sessions, grant: Grant, token: Id, now: Time)
    requires Inv(s) && token !in s.given
    ensures Inv(Step(s, Start(grant, token, now)).value)
  {
    var row := NewToken(grant, now);
    TokensGiven(s);
    CreateIs(s.db, token, row);
    hide After;
    var t := Step(s, Start(grant, token, now)).value;
    assert ChainOk(t.db.refreshTokens, Chain(grant, [token]));
    hide NewToken;
    forall i | 0 <= i < |s.chains|
      ensures ChainOk(t.db.refreshTokens, s.chains[i])
    {
      ChainGains(s.db.refreshTokens, s.chains[i], token, row);
    }
    StartedParts(s, t, Chain(grant, [token]), token);
  }

  lemma StartedParts(s: Sessions, t: Sessions, c: Chain, token: Id)
    requires Inv(s) && token !in s.given && c.tokens == [token] && t.chains == s.chains + [c]
    requires forall i :: 0 <= i < |t.chains| ==> ChainOk(t.db.refreshTokens, t.chains[i])
    requires t.given == s.given + {token} && t.db.refreshTokens.Keys == s.db.refreshTokens.Keys + {token}
    ensures Inv(t)
  {
    assert forall u :: InChain(c, u) <==> u == token;
    hide ChainOk, InChain;
    forall u | u in t.db.refreshTokens
      ensures exists i :: 0 <= i < |t.chains| && InChain(t.chains[i], u)
    {
      if u == token {
        assert InChain(t.chains[|s.chains|], u);
      } else {
        var i :| 0 <= i < |s.chains| && InChain(s.chains[i], u);
        assert InChain(t.chains[i], u);
      }
    }
  }

  /** A row that is not of the chain does not matter to it. */
  lemma ChainGains(rows: map<Id, RefreshToken>, c: Chain, token: Id, row: RefreshToken)
    requires ChainOk(rows, c) && !InChain(c, token)
    ensures ChainOk(rows[token := row], c)
  {
  }

  lemma ChainUnaffected(rows: map<Id, RefreshToken>, c: Chain, tid: Id, token: Id, next: Id, row: RefreshToken)
    requires ChainOk(rows, c) && !InChain(c, token) && !InChain(c, next)
    ensures Extended(c, token, next) == c && ChainOk(RevokedRows(rows, tid, token)[next := row], c)
  {
    assert c.tokens[|c.tokens| - 1] in c.tokens;
    ChainWanes(rows, RevokedRows(rows, tid, token), c);
    ChainGains(RevokedRows(rows, tid, token), c, next, row);
  }

  /** Refreshing the last token revokes it and puts a new last token of the same grant behind it. */
  lemma ChainExtends(rows: map<Id, RefreshToken>, c: Chain, tid: Id, token: Id, next: Id, now: Time)
    requires ChainOk(rows, c) && InChain(c, token) && !InChain(c, next) && next !in rows
    requires token in rows && !rows[token].revoked && rows[token].tenantId == tid
    ensures
      var after := RevokedRows(rows, tid, token)[next := NewToken(GrantOf(rows[token]), now)];
      && Extended(c, token, next) == c.(tokens := c.tokens + [next])
      && ChainOk(after, c.(tokens := c.tokens + [next]))
  {
    var k :| 0 <= k < |c.tokens| && c.tokens[k] == token;
    assert k == |c.tokens| - 1;
    var after := RevokedRows(rows, tid, token)[next := NewToken(GrantOf(rows[token]), now)];
    var more := c.tokens + [next];
    assert forall j :: 0 <= j < |c.tokens| ==> c.tokens[j] in c.tokens && more[j] == c.tokens[j];
    assert GrantOf(after[next]) == c.grant;
  }

  lemma RotateKeeps(s: Sessions, tid: Id, token: Id, next: Id, now: Time)
    requires Inv(s) && next !in s.given && Rotates(s.db, tid, token, now)
    ensures Inv(Step(s, Refresh(tid, token, next, now)).value)
  {
    TokensGiven(s);
    var rows := s.db.refreshTokens;
    var row := NewToken(GrantOf(rows[token]), now);
    RefreshIs(s.db, tid, token, next, now);
    var t := Step(s, Refresh(tid, token, next, now)).value;
    var after := RevokedRows(rows, tid, token)[next := row];
    assert t.db.refreshTokens == after;
    var c :| 0 <= c < |s.chains| && InChain(s.chains[c], token);
    ChainExtends(rows, s.chains[c], tid, token, next, now);
    hide Refreshed, Rotates, NewToken;
    forall i | 0 <= i < |s.chains| && i != c
      ensures t.chains[i] == s.chains[i] && ChainOk(after, s.chains[i])
    {
      assert !InChain(s.chains[i], token);
      ChainUnaffected(rows, s.chains[i], tid, token, next, row);
    }
    RotatedParts(s, t, c, next);
  }

  lemma RotatedParts(s: Sessions, t: Sessions, c: nat, next: Id)
    requires Inv(s) && next !in s.given && c < |s.chains| && |t.chains| == |s.chains|
    requires t.chains[c] == s.chains[c].(tokens := s.chains[c].tokens + [next])
    requires forall i :: 0 <= i < |s.chains| && i != c ==> t.chains[i] == s.chains[i]
    requires forall i :: 0 <= i < |s.chains| ==> ChainOk(t.db.refreshTokens, t.chains[i])
    requires t.given == s.given + {next} && t.db.refreshTokens.Keys == s.db.refreshTokens.Keys + {next}
    ensures Inv(t)
  {
    assert forall u :: InChain(t.chains[c], u) <==> InChain(s.chains[c], u) || u == next;
    hide ChainOk, InChain;
    forall u | u in t.db.refreshTokens
      ensures exists i :: 0 <= i < |t.chains| && InChain(t.chains[i], u)
    {
      if u == next {
        assert InChain(t.chains[c], u);
      } else {
        var i :| 0 <= i < |s.chains| && InChain(s.chains[i], u);
        assert InChain(t.chains[i], u);
      }
    }
  }

  lemma RefreshKeeps(s: Sessions, tid: Id, token: Id, next: Id, now: Time)
    requires Inv(s) && next !in s.given
    ensures Inv(Step(s, Refresh(tid, token, next, now)).value)
  {
    if Rotates(s.db, tid, token, now) {
      hide Inv, Step;
      RotateKeeps(s, tid, token, next, now);
    } else if Usable(s.db, tid, token, now) {
      TokensGiven(s);
      RefreshIs(s.db, tid, token, next, now);
      hide Inv, Refreshed;
      WaneKeeps(s, Refreshed(s.db, tid, token, next, now));
    } else {
      hide Inv;
      assert s.(db := s.db) == s;
    }
  }

  lemma StepKeepsInv(s: Sessions, r: Request)
    requires Inv(s) && Step(s, r).Some?
    ensures Inv(Step(s, r).value)
  {
    hide Inv, After, Refreshed, Rotates;
    match r
    case Handle(op) => HandleKeeps(s, op);
    case Start(grant, token, now) => StartKeeps(s, grant, token, now);
    case Refresh(tid, token, next, now) => RefreshKeeps(s, tid, token, next, now);
    case Revoke(tid, token) => RevokeKeeps(s, tid, token);
  }

  lemma {:induction false} RunKeepsInv(s: Sessions, rs: seq<Request>)
    requires Inv(s) && Run(s, rs).Some?
    ensures Inv(Run(s, rs).value)
  {
    hide Inv, Step;
    if rs != [] {
      var n := |rs| - 1;
      RunKeepsInv(s, rs[..n]);
      StepKeepsInv(Run(s, rs[..n]).value, rs[n]);
    }
  }

  // --- The promises of rotation ---

  /**
   * In every reachable state, at most the last token of a chain is live, and whatever rows are left of a chain have the
   * tenant, user, client and scope it was granted with.
   */
  lemma OnlyTheLastIsLive(s: Sessions, rs: seq<Request>, i: nat, j: nat)
    requires Init(s) && Run(s, rs).Some?
    requires i < |Run(s, rs).value.chains| && j < |Run(s, rs).value.chains[i].tokens|
    ensures
      var t := Run(s, rs).value;
      var c, token := t.chains[i], t.chains[i].tokens[j];
      && (Live(t.db, token) ==> j == |c.tokens| - 1)
      && (token in t.db.refreshTokens ==> GrantOf(t.db.refreshTokens[token]) == c.grant)
  {
    RunKeepsInv(s, rs);
    assert ChainOk(Run(s, rs).value.db.refreshTokens, Run(s, rs).value.chains[i]);
  }

  /** Nothing of the chain is live any more. */
  ghost predicate Ended(s: Sessions, i: nat)
    requires i < |s.chains|
  {
    forall j :: 0 <= j < |s.chains[i].tokens| ==> !Live(s.db, s.chains[i].tokens[j])
  }

  /** Revoking the live token of a chain, as RFC 7009 asks, ends the chain. */
  lemma RevokingEnds(s: Sessions, i: nat, tid: Id)
    requires Inv(s) && i < |s.chains| && s.chains[i].grant.tid == tid
    ensures
      var c := s.chains[i];
      Ended(Step(s, Revoke(tid, c.tokens[|c.tokens| - 1])).value, i)
  {
    var c := s.chains[i];
    assert ChainOk(s.db.refreshTokens, c);
    RevokeIs(s.db, tid, c.tokens[|c.tokens| - 1]);
    hide After;
  }

  /** A step neither lengthens an ended chain nor revives one of its tokens. */
  lemma EndedStays(s: Sessions, r: Request, i: nat)
    requires Inv(s) && i < |s.chains| && Ended(s, i) && Step(s, r).Some?
    ensures
      var t := Step(s, r).value;
      i < |t.chains| && t.chains[i] == s.chains[i] && Ended(t, i)
  {
    var c := s.chains[i];
    var t := Step(s, r).value;
    assert forall j :: 0 <= j < |c.tokens| ==> InChain(c, c.tokens[j]) && c.tokens[j] in s.given;
    assert c.tokens != [] by { assert ChainOk(s.db.refreshTokens, c); }
    TokensGiven(s);
    hide Inv, ChainOk;
    if r.Handle? {
      HandleRevivesNothing(s, r.op);
      hide After;
    } else if r.Start? {
      CreateIs(s.db, r.token, NewToken(r.grant, r.now));
      hide After;
    } else if r.Revoke? {
      RevokeIs(s.db, r.tid, r.token);
      hide After;
    } else if Usable(s.db, r.tid, r.token, r.now) {
      RefreshIs(s.db, r.tid, r.token, r.next, r.now);
      hide Refreshed, NewToken;
      assert Live(s.db, r.token) && c.tokens[|c.tokens| - 1] != r.token;
    }
  }

  lemma HandleRevivesNothing(s: Sessions, op: Op)
    requires !op.CreateRefreshToken? && !op.RevokeRefreshToken?
    ensures forall t :: Live(After(s.db, op), t) ==> Live(s.db, t)
  {
    hide After;
    forall t | Live(After(s.db, op), t)
      ensures Live(s.db, t)
    {
      RefreshFramed(s.db, op, t);
    }
  }

  /** A chain that ended stays as it is for good, whatever requests follow. */
  lemma {:induction false} EndedForGood(s: Sessions, rs: seq<Request>, i: nat)
    requires Inv(s) && i < |s.chains| && Ended(s, i) && Run(s, rs).Some?
    ensures
      var t := Run(s, rs).value;
      i < |t.chains| && t.chains[i] == s.chains[i] && Ended(t, i)
  {
    hide Inv, Step, Ended;
    if rs != [] {
      var n := |rs| - 1;
      EndedForGood(s, rs[..n], i);
      RunKeepsInv(s, rs[..n]);
      EndedStays(Run(s, rs[..n]).value, rs[n], i);
    }
  }

  // --- Every rotation, told by the steps of the run ---

  /** The state before step m; every prefix of a run is a run. */
  function StateAt(s: Sessions, rs: seq<Request>, m: nat): Sessions
    requires m <= |rs|
  {
    match Run(s, rs[..m])
    case None => s
    case Some(t) => t
  }

  lemma {:induction false} Stepped(s: Sessions, rs: seq<Request>, m: nat)
    requires Run(s, rs).Some? && m < |rs|
    ensures Run(s, rs[..m]).Some? && Run(s, rs[..m + 1]).Some?
    ensures Step(StateAt(s, rs, m), rs[m]) == Some(StateAt(s, rs, m + 1))
  {
    hide Step;
    var n := |rs| - 1;
    if m == n {
      assert rs[..m + 1] == rs;
    } else {
      Stepped(s, rs[..n], m);
      assert rs[..n][..m] == rs[..m] && rs[..n][..m + 1] == rs[..m + 1];
    }
  }

  /** The request that created the token, by a login or code grant or by a refresh. */
  predicate Gives(r: Request, token: Id) {
    (r.Start? && r.token == token) || (r.Refresh? && r.next == token)
  }

  /** The token is there and expires thirty days after it was given. */
  predicate Lasts(db: Tables, token: Id, given: Time) {
    token in db.refreshTokens && db.refreshTokens[token].expiresAt == given + 30 * 24 * 3600
  }

  /** The step of the run that rotates its token. */
  ghost predicate RotatesAt(s: Sessions, rs: seq<Request>, n: nat) {
    && n < |rs| && rs[n].Refresh?
    && rs[n].next !in StateAt(s, rs, n).given && rs[n].next in StateAt(s, rs, n + 1).given
  }

  /** The token of this request was usable by its tenant, its user was there, and it is replaced by one like it. */
  ghost predicate Rotation(was: Tables, after: Tables, tid: Id, token: Id, next: Id, now: Time) {
    && token in was.refreshTokens && next !in was.refreshTokens
    && var row := was.refreshTokens[token];
       && row.tenantId == tid && !row.revoked && now <= row.expiresAt
       && row.userId in was.users && was.users[row.userId].tenantId == tid
       && after == was.(refreshTokens := was.refreshTokens[token := row.(revoked := true)][
            next := RefreshToken(tid, row.clientId, row.userId, row.scope, now + 30 * 24 * 3600, false)])
  }

  /** The token was there before the step, with this expiry, and is not revived by it. */
  predicate Found(was: Tables, after: Tables, token: Id) {
    && token in was.refreshTokens && token in after.refreshTokens
    && was.refreshTokens[token].expiresAt == after.refreshTokens[token].expiresAt
    && (was.refreshTokens[token].revoked ==> after.refreshTokens[token].revoked)
  }

  /** A step that leaves a token either found it there or gave it. */
  lemma StepLeaves(s: Sessions, r: Request, token: Id)
    requires Inv(s) && Step(s, r).Some? && token in Step(s, r).value.db.refreshTokens
    ensures
      || Found(s.db, Step(s, r).value.db, token)
      || (Gives(r, token) && Lasts(Step(s, r).value.db, token, r.now))
  {
    TokensGiven(s);
    hide Inv, ChainOk;
    if r.Handle? {
      hide After;
      RefreshFramed(s.db, r.op, token);
    } else if r.Start? {
      CreateIs(s.db, r.token, NewToken(r.grant, r.now));
      hide After;
    } else if r.Revoke? {
      RevokeIs(s.db, r.tid, r.token);
      hide After;
    } else if Usable(s.db, r.tid, r.token, r.now) {
      RefreshIs(s.db, r.tid, r.token, r.next, r.now);
      hide Refreshed;
    }
  }

  /** Since it was given the token is there with that expiry, and live if it is live at n. */
  ghost predicate KeptSince(s: Sessions, rs: seq<Request>, r: nat, n: nat, token: Id)
    requires r < |rs| && Gives(rs[r], token)
  {
    forall m :: r < m <= n <= |rs| ==>
      && Lasts(StateAt(s, rs, m).db, token, rs[r].now)
      && (Live(StateAt(s, rs, n).db, token) ==> Live(StateAt(s, rs, m).db, token))
  }

  lemma KeptOn(s: Sessions, rs: seq<Request>, r: nat, n: nat, token: Id)
    requires r < n < |rs| && Gives(rs[r], token) && KeptSince(s, rs, r, n, token)
    requires Found(StateAt(s, rs, n).db, StateAt(s, rs, n + 1).db, token)
    ensures KeptSince(s, rs, r, n + 1, token)
  {
    hide StateAt;
    assert Lasts(StateAt(s, rs, n).db, token, rs[r].now);
    assert Live(StateAt(s, rs, n + 1).db, token) ==> Live(StateAt(s, rs, n).db, token);
  }

  /** Whatever token there is, one request gave it, and it has been there ever since. */
  lemma {:induction false} TokenOrigin(s: Sessions, rs: seq<Request>, n: nat, token: Id) returns (r: nat)
    requires Init(s) && Run(s, rs).Some? && n <= |rs| && token in StateAt(s, rs, n).db.refreshTokens
    ensures r < n && Gives(rs[r], token) && KeptSince(s, rs, r, n, token)
  {
    assert rs[..0] == [] && StateAt(s, rs, 0) == s;
    hide Run, Step, Inv, Gives, KeptSince, Found, Lasts;
    assert n > 0;
    hide Init;
    Stepped(s, rs, n - 1);
    ReachedInv(s, rs, n - 1);
    StepLeaves(StateAt(s, rs, n - 1), rs[n - 1], token);
    hide StateAt;
    if Found(StateAt(s, rs, n - 1).db, StateAt(s, rs, n).db, token) {
      WasThere(StateAt(s, rs, n - 1).db, StateAt(s, rs, n).db, token);
      r := TokenOrigin(s, rs, n - 1, token);
      KeptOn(s, rs, r, n - 1, token);
    } else {
      r := n - 1;
      JustGiven(s, rs, r, token);
    }
  }

  lemma WasThere(was: Tables, after: Tables, token: Id)
    requires Found(was, after, token)
    ensures token in was.refreshTokens
  {
  }

  lemma JustGiven(s: Sessions, rs: seq<Request>, r: nat, token: Id)
    requires r < |rs| && Gives(rs[r], token) && Lasts(StateAt(s, rs, r + 1).db, token, rs[r].now)
    ensures KeptSince(s, rs, r, r + 1, token)
  {
    hide StateAt;
  }

  lemma InitInv(s: Sessions)
    requires Init(s)
    ensures Inv(s)
  {
  }

  lemma ReachedInv(s: Sessions, rs: seq<Request>, m: nat)
    requires Init(s) && Run(s, rs).Some? && m <= |rs|
    ensures Inv(StateAt(s, rs, m))
  {
    hide Step, Inv, Init;
    InitInv(s);
    if m < |rs| {
      Stepped(s, rs, m);
    } else {
      assert rs[..m] == rs;
    }
    RunKeepsInv(s, rs[..m]);
  }

  /** What a rotation needs and does. */
  lemma RotationIs(s: Sessions, rs: seq<Request>, n: nat)
    requires Init(s) && Run(s, rs).Some? && RotatesAt(s, rs, n)
    ensures Rotation(StateAt(s, rs, n).db, StateAt(s, rs, n + 1).db, rs[n].tid, rs[n].token, rs[n].next, rs[n].now)
  {
    Stepped(s, rs, n);
    ReachedInv(s, rs, n);
    hide Run, Inv, Init;
    var v, r := StateAt(s, rs, n), rs[n];
    TokensGiven(v);
    assert Rotates(v.db, r.tid, r.token, r.now) by {
      hide Refreshed, Rotates;
    }
    RefreshIs(v.db, r.tid, r.token, r.next, r.now);
    hide Refreshed, StateAt;
  }

  lemma {:induction false} GivenGrows(s: Sessions, rs: seq<Request>, m: nat, n: nat)
    requires Run(s, rs).Some? && m <= n <= |rs|
    ensures StateAt(s, rs, m).given <= StateAt(s, rs, n).given
    decreases n - m
  {
    hide Step, Run;
    if m < n {
      GivenGrows(s, rs, m, n - 1);
      Stepped(s, rs, n - 1);
      StepGiven(StateAt(s, rs, n - 1), rs[n - 1]);
    }
  }

  lemma StepGiven(s: Sessions, r: Request)
    requires Step(s, r).Some?
    ensures s.given <= Step(s, r).value.given
    ensures forall token :: Gives(r, token) ==> token !in s.given
  {
    hide After, Refreshed;
  }

  /** A token that is still to be given is not there. */
  lemma NotBeforeGiven(s: Sessions, rs: seq<Request>, m: nat, q: nat, token: Id)
    requires Init(s) && Run(s, rs).Some? && m <= q < |rs| && Gives(rs[q], token)
    ensures token !in StateAt(s, rs, m).db.refreshTokens
  {
    hide Run, Init, Inv, Step;
    ReachedInv(s, rs, m);
    TokensGiven(StateAt(s, rs, m));
    GivenGrows(s, rs, m, q);
    Stepped(s, rs, q);
    StepGiven(StateAt(s, rs, q), rs[q]);
  }

  lemma RotatedBefore(s: Sessions, rs: seq<Request>, n: nat, k: nat)
    requires Init(s) && Run(s, rs).Some? && RotatesAt(s, rs, n) && RotatesAt(s, rs, k) && n < k
    ensures rs[n].token != rs[k].token
  {
    assert rs[n].Refresh? && rs[k].Refresh?;
    hide Run, Step, Init, RotatesAt, StateAt, Gives;
    RotationIs(s, rs, n);
    RotationIs(s, rs, k);
    var r := TokenOrigin(s, rs, k, rs[k].token);
    if n <= r {
      NotBeforeGiven(s, rs, n, r, rs[k].token);
    } else {
      assert Live(StateAt(s, rs, n + 1).db, rs[k].token);
    }
  }

  /**
   * Over every run, a token is rotated at most once, within the thirty days after the step r that gave it, by a request
   * of its tenant, while its user exists, and only if it was there and not revoked in every state since r; the new
   * token is for the same client, user and scope.
   */
  lemma RotatedOnce(s: Sessions, rs: seq<Request>, n: nat) returns (r: nat)
    requires Init(s) && Run(s, rs).Some? && RotatesAt(s, rs, n)
    ensures r < n && Gives(rs[r], rs[n].token) && rs[n].now <= rs[r].now + 30 * 24 * 3600
    ensures forall m :: r < m <= n ==> Live(StateAt(s, rs, m).db, rs[n].token)
    ensures Rotation(StateAt(s, rs, n).db, StateAt(s, rs, n + 1).db, rs[n].tid, rs[n].token, rs[n].next, rs[n].now)
    ensures forall k: nat :: RotatesAt(s, rs, k) && rs[k].token == rs[n].token ==> k == n
  {
    hide Run, Step, Init, StateAt;
    RotationIs(s, rs, n);
    r := TokenOrigin(s, rs, n, rs[n].token);
    assert Lasts(StateAt(s, rs, n).db, rs[n].token, rs[r].now);
    hide KeptSince, Rotation;
    forall k: nat | RotatesAt(s, rs, k) && rs[k].token == rs[n].token
      ensures k == n
    {
      if k < n {
        RotatedBefore(s, rs, k, n);
      } else if n < k {
        RotatedBefore(s, rs, n, k);
      }
    }
  }
}

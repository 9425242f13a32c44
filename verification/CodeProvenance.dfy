/**
 * Where the tokens of the authorization code grant come from, told by the steps of the run and the tables each step
 * met: what the history of the machine records was true when it was recorded.
 */
module CodeProvenance {
  import opened Wrappers
  import opened Schema
  import opened StoreOps
  import opened CodeGrants

  /** The state before step m; every prefix of a run is a run. */
  function StateAt(crypto: Crypto, g: Grants, ls: seq<Label>, m: nat): Grants
    requires m <= |ls|
  {
    match Run(crypto, g, ls[..m])
    case None => g
    case Some(w) => w
  }

  lemma {:induction false} Stepped(crypto: Crypto, g: Grants, ls: seq<Label>, m: nat)
    requires Run(crypto, g, ls).Some? && m < |ls|
    ensures Run(crypto, g, ls[..m]).Some? && Run(crypto, g, ls[..m + 1]).Some?
    ensures Step(crypto, StateAt(crypto, g, ls, m), ls[m]) == Some(StateAt(crypto, g, ls, m + 1))
  {
    hide Step;
    var n := |ls| - 1;
    if m == n {
      assert ls[..m + 1] == ls;
    } else {
      Stepped(crypto, g, ls[..n], m);
      assert ls[..n][..m] == ls[..m] && ls[..n][..m + 1] == ls[..m + 1];
    }
  }

  lemma StepRecords(crypto: Crypto, w: Grants, l: Label)
    requires Step(crypto, w, l).Some?
    ensures
      var h := Step(crypto, w, l).value.history;
      h == w.history || (|h| == |w.history| + 1 && h[..|w.history|] == w.history)
  {
    hide After, NewCode, Shown;
  }

  /** The history only grows along a run. */
  lemma {:induction false} HistoryGrows(crypto: Crypto, g: Grants, ls: seq<Label>, m: nat, n: nat)
    requires Run(crypto, g, ls).Some? && m <= n <= |ls|
    ensures StateAt(crypto, g, ls, m).history <= StateAt(crypto, g, ls, n).history
    decreases n - m
  {
    hide Step, Run;
    if m < n {
      HistoryGrows(crypto, g, ls, m, n - 1);
      Stepped(crypto, g, ls, n - 1);
      StepRecords(crypto, StateAt(crypto, g, ls, n - 1), ls[n - 1]);
    }
  }

  /** Step m of the run recorded event j. */
  ghost predicate RecordedAt(crypto: Crypto, g: Grants, ls: seq<Label>, j: nat, m: nat)
    requires Run(crypto, g, ls).Some? && j < |Run(crypto, g, ls).value.history|
  {
    && m < |ls| && |StateAt(crypto, g, ls, m).history| == j
    && StateAt(crypto, g, ls, m + 1).history
       == StateAt(crypto, g, ls, m).history + [Run(crypto, g, ls).value.history[j]]
  }

  lemma Recorded(crypto: Crypto, g: Grants, ls: seq<Label>, j: nat) returns (m: nat)
    requires Run(crypto, g, ls).Some? && g.history == [] && j < |Run(crypto, g, ls).value.history|
    ensures RecordedAt(crypto, g, ls, j, m)
  {
    hide Step;
    m := 0;
    assert ls[..0] == [] && ls[..|ls|] == ls;
    var h := Run(crypto, g, ls).value.history;
    while m < |ls| && |StateAt(crypto, g, ls, m + 1).history| <= j
      invariant m <= |ls| && |StateAt(crypto, g, ls, m).history| <= j
    {
      m := m + 1;
    }
    hide Run;
    Stepped(crypto, g, ls, m);
    StepRecords(crypto, StateAt(crypto, g, ls, m), ls[m]);
    HistoryGrows(crypto, g, ls, m + 1, |ls|);
  }

  /** Later events were recorded by later steps. */
  lemma InOrder(crypto: Crypto, g: Grants, ls: seq<Label>, i: nat, m: nat, j: nat, n: nat)
    requires Run(crypto, g, ls).Some? && i < j < |Run(crypto, g, ls).value.history|
    requires RecordedAt(crypto, g, ls, i, m) && RecordedAt(crypto, g, ls, j, n)
    ensures m < n
  {
    hide Run;
    if n <= m {
      HistoryGrows(crypto, g, ls, n, m);
    }
  }

  /** Every event was recorded by one step. */
  lemma SameStep(crypto: Crypto, g: Grants, ls: seq<Label>, i: nat, m: nat, n: nat)
    requires Run(crypto, g, ls).Some? && i < |Run(crypto, g, ls).value.history|
    requires RecordedAt(crypto, g, ls, i, m) && RecordedAt(crypto, g, ls, i, n)
    ensures m == n
  {
    hide Run;
    if m < n {
      HistoryGrows(crypto, g, ls, m + 1, n);
    } else if n < m {
      HistoryGrows(crypto, g, ls, n + 1, m);
    }
  }

  predicate HasClient(db: Tables, tid: Id, clientId: Id) {
    clientId in db.clients && db.clients[clientId].tenantId == tid
  }

  predicate HasRedirect(db: Tables, tid: Id, clientId: Id, uri: string) {
    HasClient(db, tid, clientId) && uri in db.clients[clientId].redirectUris
  }

  predicate HasUser(db: Tables, tid: Id, userId: Id) {
    userId in db.users && db.users[userId].tenantId == tid
  }

  /** What an event records was so in the tables the step met, and its label is the request it names. */
  ghost predicate True(crypto: Crypto, w: Grants, l: Label, e: Event) {
    match e
    case ClientChecked(thread, a) => l == CheckClient(thread, a) && HasRedirect(w.db, a.tid, a.clientId, a.redirectUri)
    case UserSignedIn(thread, a, userId) =>
      && l == SignIn(thread, userId) && HasUser(w.db, a.tid, userId) && w.db.users[userId].email == a.email
      && crypto.matches(w.db.users[userId].passwordHash, a.password)
    case CodeStored(thread, _, _, code, expiresAt) => l == StoreCode(thread, code, expiresAt - 600)
    case CodeSpent(thread, t, now) =>
      && l == Spend(thread, t, now) && t.code in w.db.authCodes && w.db.authCodes[t.code].tenantId == t.tid
      && !w.db.authCodes[t.code].used && now < w.db.authCodes[t.code].expiresAt
    case ProofShown(thread, t, row, hash) =>
      && l == Prove(thread)
      && (hash.Some? ==> HasClient(w.db, t.tid, row.clientId) && w.db.clients[row.clientId].secretHash == hash.value)
    case UserFound(thread, t, row) => l == FindUser(thread) && HasUser(w.db, t.tid, row.userId)
    case TokensIssued(thread, t, row, refresh) =>
      && l.Issue? && l.thread == thread && l.refresh == refresh
      && At(w, thread) && w.threads[thread] == UserKnown(t, row)
  }

  lemma EventIsTrue(crypto: Crypto, w: Grants, l: Label, e: Event)
    requires Step(crypto, w, l).Some? && Step(crypto, w, l).value.history == w.history + [e]
    ensures True(crypto, w, l, e)
  {
    hide After, NewCode, Shown;
    assert (w.history + [e])[|w.history|] == e;
    assert w.history != w.history + [e];
  }

  /** In every run every recorded event was true when it was recorded. */
  lemma EventsAreTrue(crypto: Crypto, g: Grants, ls: seq<Label>, j: nat) returns (m: nat)
    requires Init(g) && Run(crypto, g, ls).Some? && j < |Run(crypto, g, ls).value.history|
    ensures RecordedAt(crypto, g, ls, j, m)
    ensures True(crypto, StateAt(crypto, g, ls, m), ls[m], Run(crypto, g, ls).value.history[j])
  {
    m := Recorded(crypto, g, ls, j);
    hide Run, Step, True;
    Stepped(crypto, g, ls, m);
    EventIsTrue(crypto, StateAt(crypto, g, ls, m), ls[m], Run(crypto, g, ls).value.history[j]);
  }

  // --- The whole provenance of one token response ---

  /** The steps behind the tokens that step n issued, with the authorization request and the sign-in that began them. */
  datatype Trail = Trail(a: AuthorizeRequest, thread: nat, userId: Id, check: nat, signIn: nat, store: nat, spend: nat,
                         prove: nat, find: nat)

  /** Step n issues tokens: its request, and the code it was answered with. */
  ghost predicate Issues(crypto: Crypto, g: Grants, ls: seq<Label>, n: nat, t: TokenRequest, row: AuthCode) {
    && n < |ls| && ls[n].Issue? && At(StateAt(crypto, g, ls, n), ls[n].thread)
    && StateAt(crypto, g, ls, n).threads[ls[n].thread] == UserKnown(t, row)
  }

  /** The code holds what the authorization request asked for, and expires ten minutes after it was stored. */
  predicate CodeOf(row: AuthCode, a: AuthorizeRequest, userId: Id, stored: Time) {
    && row.tenantId == a.tid && row.clientId == a.clientId && row.userId == userId && row.redirectUri == a.redirectUri
    && row.scope == a.scope && row.nonce == a.nonce && row.codeChallenge == a.challenge
    && row.codeChallengeMethod == a.challengeMethod && row.expiresAt == stored + 600
  }

  /** The authorization request's half: registered client and redirect URI, the user's password, then the code. */
  ghost predicate Authorized(crypto: Crypto, g: Grants, ls: seq<Label>, code: Id, row: AuthCode, tr: Trail) {
    && tr.check < tr.signIn < tr.store < |ls|
    && ls[tr.check] == CheckClient(tr.thread, tr.a)
    && HasRedirect(StateAt(crypto, g, ls, tr.check).db, tr.a.tid, tr.a.clientId, tr.a.redirectUri)
    && ls[tr.signIn] == SignIn(tr.thread, tr.userId)
    && (var db := StateAt(crypto, g, ls, tr.signIn).db;
        && HasUser(db, tr.a.tid, tr.userId) && db.users[tr.userId].email == tr.a.email
        && crypto.matches(db.users[tr.userId].passwordHash, tr.a.password))
    && ls[tr.store].StoreCode? && ls[tr.store].thread == tr.thread && ls[tr.store].code == code
    && CodeOf(row, tr.a, tr.userId, ls[tr.store].now)
  }

  /**
   * The preimage of the S256 challenge (RFC 7636 section 4.6) or, without a challenge, the secret of the code's client
   * in these tables.
   */
  predicate Proves(crypto: Crypto, db: Tables, t: TokenRequest, row: AuthCode) {
    && (row.codeChallenge != "" ==> row.codeChallengeMethod == "S256" && crypto.s256(t.verifier) == row.codeChallenge)
    && (row.codeChallenge == "" ==>
          && HasClient(db, t.tid, row.clientId) && t.secret != ""
          && crypto.matches(db.clients[row.clientId].secretHash, t.secret))
  }

  /** The token request's half: the code was accepted, then its client or verifier proven, then its user found. */
  ghost predicate Redeemed(crypto: Crypto, g: Grants, ls: seq<Label>, n: nat, t: TokenRequest, row: AuthCode, tr: Trail)
    requires n < |ls| && ls[n].Issue?
  {
    && tr.spend < tr.prove < tr.find < n
    && ls[tr.spend].Spend? && ls[tr.spend].thread == ls[n].thread && ls[tr.spend].t == t
    && (var codes := StateAt(crypto, g, ls, tr.spend).db.authCodes;
        && t.code in codes && codes[t.code].tenantId == t.tid && !codes[t.code].used
        && ls[tr.spend].now < codes[t.code].expiresAt)
    && ls[tr.prove] == Prove(ls[n].thread) && Proves(crypto, StateAt(crypto, g, ls, tr.prove).db, t, row)
    && ls[tr.find] == FindUser(ls[n].thread) && HasUser(StateAt(crypto, g, ls, tr.find).db, t.tid, row.userId)
  }

  ghost predicate Provenance(crypto: Crypto, g: Grants, ls: seq<Label>, n: nat, t: TokenRequest, row: AuthCode,
                             tr: Trail)
    requires n < |ls| && ls[n].Issue?
  {
    && Authorized(crypto, g, ls, t.code, row, tr) && tr.store < tr.spend && tr.a.tid == t.tid
    && (t.clientId == "" || t.clientId == row.clientId) && t.redirectUri == row.redirectUri
    && Redeemed(crypto, g, ls, n, t, row, tr)
  }

  /** An issuing step records an event with its request and code. */
  lemma IssueRecords(crypto: Crypto, g: Grants, ls: seq<Label>, n: nat) returns (i: nat, t: TokenRequest, row: AuthCode)
    requires Run(crypto, g, ls).Some? && n < |ls| && ls[n].Issue?
    ensures Issues(crypto, g, ls, n, t, row)
    ensures i < |Run(crypto, g, ls).value.history| && RecordedAt(crypto, g, ls, i, n)
    ensures Run(crypto, g, ls).value.history[i] == TokensIssued(ls[n].thread, t, row, ls[n].refresh)
  {
    var w := StateAt(crypto, g, ls, n);
    i := |w.history|;
    assert ls[..|ls|] == ls;
    hide Run, After;
    Stepped(crypto, g, ls, n);
    t, row := w.threads[ls[n].thread].t, w.threads[ls[n].thread].row;
    HistoryGrows(crypto, g, ls, n + 1, |ls|);
    assert StateAt(crypto, g, ls, n + 1).history[i] == TokensIssued(ls[n].thread, t, row, ls[n].refresh);
  }

  lemma NewCodeIs(a: AuthorizeRequest, userId: Id, expiresAt: Time, row: AuthCode)
    requires row == NewCode(a, userId, expiresAt).(used := row.used)
    ensures CodeOf(row, a, userId, expiresAt - 600)
  {
  }

  lemma ShownProves(crypto: Crypto, db: Tables, t: TokenRequest, row: AuthCode, hash: Option<string>)
    requires Shown(crypto, t, row, hash)
    requires hash.Some? ==> HasClient(db, t.tid, row.clientId) && db.clients[row.clientId].secretHash == hash.value
    ensures Proves(crypto, db, t, row) && (t.clientId == "" || t.clientId == row.clientId)
    ensures t.redirectUri == row.redirectUri
  {
  }

  lemma AuthorizedBy(crypto: Crypto, g: Grants, ls: seq<Label>, h: seq<Event>, i: nat, c: nat, s: nat, k: nat, x: nat,
                     q: nat, f: nat) returns (tr: Trail)
    requires Init(g) && Run(crypto, g, ls).Some? && h == Run(crypto, g, ls).value.history
    requires i < |h| && h[i].TokensIssued? && Traces(crypto, h, i, c, s, k, x, q, f)
    ensures Authorized(crypto, g, ls, h[i].t.code, h[i].row, tr) && tr.a == h[k].a
    ensures RecordedAt(crypto, g, ls, k, tr.store)
  {
    hide Run, Step, Shown, RecordedAt, HasRedirect, HasUser, NewCode, CodeOf;
    var cm := EventsAreTrue(crypto, g, ls, c);
    var sm := EventsAreTrue(crypto, g, ls, s);
    var km := EventsAreTrue(crypto, g, ls, k);
    InOrder(crypto, g, ls, c, cm, s, sm);
    InOrder(crypto, g, ls, s, sm, k, km);
    StoreIsLabel(crypto, g, ls, k, km);
    NewCodeIs(h[k].a, h[k].userId, h[k].expiresAt, h[i].row);
    tr := Trail(h[k].a, h[k].thread, h[k].userId, cm, sm, km, 0, 0, 0);
  }

  lemma StoreIsLabel(crypto: Crypto, g: Grants, ls: seq<Label>, k: nat, m: nat)
    requires Run(crypto, g, ls).Some? && k < |Run(crypto, g, ls).value.history| && RecordedAt(crypto, g, ls, k, m)
    ensures m < |ls|
  {
  }

  lemma RedeemedBy(crypto: Crypto, g: Grants, ls: seq<Label>, h: seq<Event>, n: nat, i: nat, c: nat, s: nat, k: nat,
                   x: nat, q: nat, f: nat) returns (spend: nat, prove: nat, find: nat)
    requires Init(g) && Run(crypto, g, ls).Some? && h == Run(crypto, g, ls).value.history
    requires i < |h| && h[i].TokensIssued? && Traces(crypto, h, i, c, s, k, x, q, f)
    requires RecordedAt(crypto, g, ls, i, n) && n < |ls| && ls[n].Issue? && ls[n].thread == h[i].thread
    ensures forall tr: Trail | tr.spend == spend && tr.prove == prove && tr.find == find ::
              Redeemed(crypto, g, ls, n, h[i].t, h[i].row, tr)
    ensures (h[i].t.clientId == "" || h[i].t.clientId == h[i].row.clientId)
    ensures h[i].t.redirectUri == h[i].row.redirectUri
    ensures RecordedAt(crypto, g, ls, x, spend)
  {
    hide Run, Step, Shown, RecordedAt, NewCode, HasUser, Proves, HasClient;
    spend := EventsAreTrue(crypto, g, ls, x);
    prove := EventsAreTrue(crypto, g, ls, q);
    find := EventsAreTrue(crypto, g, ls, f);
    InOrder(crypto, g, ls, x, spend, q, prove);
    InOrder(crypto, g, ls, q, prove, f, find);
    InOrder(crypto, g, ls, f, find, i, n);
    ShownProves(crypto, StateAt(crypto, g, ls, prove).db, h[i].t, h[i].row, h[q].hash);
  }

  /** The row an issuing step stores for its refresh token. */
  lemma IssuedRow(crypto: Crypto, g: Grants, ls: seq<Label>, n: nat, t: TokenRequest, row: AuthCode)
    requires Run(crypto, g, ls).Some? && Issues(crypto, g, ls, n, t, row)
    ensures
      var tokens := StateAt(crypto, g, ls, n + 1).db.refreshTokens;
      && ls[n].refresh in tokens
      && tokens[ls[n].refresh]
         == RefreshToken(t.tid, row.clientId, row.userId, row.scope, ls[n].now + 30 * 24 * 3600, false)
  {
    hide Run;
    Stepped(crypto, g, ls, n);
    hide ExecTenancy, ExecUser, ExecContact, ExecSegment, ExecCampaign, ExecRecipient;
  }

  /**
   * The tokens that a step issues come from one authorization request: its client and redirect URI were registered and
   * the user's password matched in the tables of those steps, the code was stored for that client, user, scope and
   * nonce, accepted in its tenant before it expired, the redeemer named the same redirect URI and no other client and
   * showed the preimage of the S256 challenge or, without a challenge, the secret of the client as it was then, and the
   * user still existed. The refresh token is for that client, user and scope, and no other step issues tokens for that
   * code.
   */
  lemma IssuedTokensTrace(crypto: Crypto, g: Grants, ls: seq<Label>, n: nat)
    returns (t: TokenRequest, row: AuthCode, tr: Trail)
    requires Init(g) && Run(crypto, g, ls).Some? && n < |ls| && ls[n].Issue?
    ensures Issues(crypto, g, ls, n, t, row) && Provenance(crypto, g, ls, n, t, row, tr)
    ensures
      var tokens := StateAt(crypto, g, ls, n + 1).db.refreshTokens;
      && ls[n].refresh in tokens
      && tokens[ls[n].refresh]
         == RefreshToken(t.tid, tr.a.clientId, tr.userId, tr.a.scope, ls[n].now + 30 * 24 * 3600, false)
    ensures forall j, u, r :: Issues(crypto, g, ls, j, u, r) && u.code == t.code ==> j == n
  {
    hide Step, Run, RecordedAt, Issues, Redeemed, HasRedirect, HasUser;
    RunKeepsInv(crypto, g, ls);
    var h := Run(crypto, g, ls).value.history;
    var i;
    i, t, row := IssueRecords(crypto, g, ls, n);
    IssuedRow(crypto, g, ls, n, t, row);
    hide AllJustified, PhaseOk, CodesOk, NoneIssued;
    var c, s, k, x, q, f := TokensTrace(crypto, h, i);
    tr := AuthorizedBy(crypto, g, ls, h, i, c, s, k, x, q, f);
    var spend, prove, find := RedeemedBy(crypto, g, ls, h, n, i, c, s, k, x, q, f);
    InOrder(crypto, g, ls, k, tr.store, x, spend);
    tr := tr.(spend := spend, prove := prove, find := find);
    forall j, u, r | Issues(crypto, g, ls, j, u, r) && u.code == t.code
      ensures j == n
    {
      OneStepPerCode(crypto, g, ls, h, i, n, j, u, r);
    }
  }

  lemma OneStepPerCode(crypto: Crypto, g: Grants, ls: seq<Label>, h: seq<Event>, i: nat, n: nat, j: nat,
                       u: TokenRequest, r: AuthCode)
    requires Run(crypto, g, ls).Some? && h == Run(crypto, g, ls).value.history && AllJustified(crypto, h)
    requires i < |h| && RecordedAt(crypto, g, ls, i, n) && h[i].TokensIssued?
    requires Issues(crypto, g, ls, j, u, r) && u.code == h[i].t.code
    ensures j == n
  {
    hide Run, AllJustified;
    var e, v, w := IssueRecords(crypto, g, ls, j);
    if i < e {
      OnePerCode(crypto, h, i, e);
    } else if e < i {
      OnePerCode(crypto, h, e, i);
    } else {
      SameStep(crypto, g, ls, i, j, n);
    }
  }
}

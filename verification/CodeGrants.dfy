/**
 * The authorization code grant (RFC 6749 section 4.1) as a state machine: AuthorizePOST and tokenAuthorizationCode of
 * backend/iam/handlers.go one database statement at a time, any number of requests at once, with every other operation
 * of the stores in between. The history records what each request established, in order.
 */
module CodeGrants {
  import opened Wrappers
  import opened Schema
  import opened StoreOps
  import opened TokenFrames

  /** BASE64URL(SHA256(.)) without padding, and the comparison of a stored hash with a given secret. */
  datatype Crypto = Crypto(s256: string -> string, matches: (string, string) -> bool)

  datatype AuthorizeRequest = AuthorizeRequest(tid: Id, email: string, password: string, clientId: Id,
                                               redirectUri: string, scope: string, nonce: string,
                                               challenge: string, challengeMethod: string)

  datatype TokenRequest = TokenRequest(tid: Id, code: Id, redirectUri: string, verifier: string, clientId: Id,
                                       secret: string)

  datatype Phase =
    | ClientKnown(a: AuthorizeRequest)
    | SignedIn(a: AuthorizeRequest, userId: Id)
    | Spent(t: TokenRequest)
    | Loaded(t: TokenRequest, row: AuthCode)
    | Proven(t: TokenRequest, row: AuthCode)
    | UserKnown(t: TokenRequest, row: AuthCode)
    | Done

  /** What a request established; `thread` tells requests apart, `hash` is the client's secret hash at that moment. */
  datatype Event =
    | ClientChecked(thread: nat, a: AuthorizeRequest)
    | UserSignedIn(thread: nat, a: AuthorizeRequest, userId: Id)
    | CodeStored(thread: nat, a: AuthorizeRequest, userId: Id, code: Id, expiresAt: Time)
    | CodeSpent(thread: nat, t: TokenRequest, now: Time)
    | ProofShown(thread: nat, t: TokenRequest, row: AuthCode, hash: Option<string>)
    | UserFound(thread: nat, t: TokenRequest, row: AuthCode)
    | TokensIssued(thread: nat, t: TokenRequest, row: AuthCode, refresh: Id)

  datatype Grants = Grants(db: Tables, threads: map<nat, Phase>, given: set<Id>, history: seq<Event>)

  datatype Label =
    | Handle(op: Op)
    | CheckClient(thread: nat, a: AuthorizeRequest)
    | SignIn(thread: nat, userId: Id)
    | StoreCode(thread: nat, code: Id, now: Time)
    | Spend(thread: nat, t: TokenRequest, now: Time)
    | LoadCode(thread: nat)
    | Prove(thread: nat)
    | FindUser(thread: nat)
    | Issue(thread: nat, refresh: Id, now: Time)

  const CODE_TTL := 600
  const REFRESH_TTL := 30 * 24 * 3600

  function NewCode(a: AuthorizeRequest, userId: Id, expiresAt: Time): AuthCode {
    AuthCode(a.tid, a.clientId, userId, a.redirectUri, a.scope, a.nonce, a.challenge, a.challengeMethod, expiresAt,
             false)
  }

  predicate ClientRegistered(db: Tables, a: AuthorizeRequest) {
    && a.clientId in db.clients && db.clients[a.clientId].tenantId == a.tid
    && a.redirectUri in db.clients[a.clientId].redirectUris
  }

  predicate Authenticated(crypto: Crypto, db: Tables, a: AuthorizeRequest, userId: Id) {
    && userId in Scoped(db.users, a.tid) && db.users[userId].email == a.email
    && crypto.matches(db.users[userId].passwordHash, a.password)
  }

  /** The checks between ConsumeAuthCode and the user lookup; `hash` is what GetClient returns for the code's client. */
  predicate Shown(crypto: Crypto, t: TokenRequest, row: AuthCode, hash: Option<string>) {
    && (t.clientId == "" || t.clientId == row.clientId)
    && t.redirectUri == row.redirectUri
    && if row.codeChallenge != "" then
         t.verifier != "" && row.codeChallengeMethod == "S256" && crypto.s256(t.verifier) == row.codeChallenge
       else
         t.secret != "" && hash.Some? && crypto.matches(hash.value, t.secret)
  }

  function ClientHash(db: Tables, tid: Id, clientId: Id): Option<string> {
    if clientId in db.clients && db.clients[clientId].tenantId == tid
    then Some(db.clients[clientId].secretHash)
    else None
  }

  function Goes(g: Grants, thread: nat, phase: Phase): Grants {
    g.(threads := g.threads[thread := phase])
  }

  function Records(g: Grants, e: Event): Grants {
    g.(history := g.history + [e])
  }

  predicate At(g: Grants, thread: nat) {
    thread in g.threads && !g.threads[thread].Done?
  }

  /** Requests leave codes alone except by the two statements below; a tenant may still be deleted with its codes. */
  predicate OtherOp(op: Op) {
    !op.CreateAuthCode? && !op.UseAuthCode?
  }

  function Step(crypto: Crypto, g: Grants, l: Label): Option<Grants> {
    match l
    case Handle(op) => if OtherOp(op) then Some(g.(db := After(g.db, op))) else None
    case CheckClient(thread, a) =>
      if thread !in g.threads && ClientRegistered(g.db, a)
      then Some(Records(Goes(g, thread, ClientKnown(a)), ClientChecked(thread, a))) else None
    case SignIn(thread, userId) =>
      if At(g, thread) && g.threads[thread].ClientKnown? && Authenticated(crypto, g.db, g.threads[thread].a, userId)
      then
        var a := g.threads[thread].a;
        Some(Records(Goes(g, thread, SignedIn(a, userId)), UserSignedIn(thread, a, userId)))
      else None
    case StoreCode(thread, code, now) =>
      if At(g, thread) && g.threads[thread].SignedIn? && code !in g.given then
        var SignedIn(a, userId) := g.threads[thread];
        var stored := After(g.db, CreateAuthCode(code, NewCode(a, userId, now + CODE_TTL)));
        Some(Records(Goes(g, thread, Done), CodeStored(thread, a, userId, code, now + CODE_TTL))
             .(db := stored, given := g.given + {code}))
      else None
    case Spend(thread, t, now) =>
      if thread !in g.threads && CodeAccepted(g.db, t.tid, t.code, now)
      then Some(Records(Goes(g, thread, Spent(t)), CodeSpent(thread, t, now))
                .(db := After(g.db, UseAuthCode(t.tid, t.code, now))))
      else None
    case LoadCode(thread) =>
      if At(g, thread) && g.threads[thread].Spent? then
        var t := g.threads[thread].t;
        if t.code in g.db.authCodes && g.db.authCodes[t.code].tenantId == t.tid
        then Some(Goes(g, thread, Loaded(t, g.db.authCodes[t.code])))
        else Some(Goes(g, thread, Done))
      else None
    case Prove(thread) =>
      if At(g, thread) && g.threads[thread].Loaded? then
        var Loaded(t, row) := g.threads[thread];
        var hash := ClientHash(g.db, t.tid, row.clientId);
        if Shown(crypto, t, row, hash)
        then Some(Records(Goes(g, thread, Proven(t, row)), ProofShown(thread, t, row, hash)))
        else Some(Goes(g, thread, Done))
      else None
    case FindUser(thread) =>
      if At(g, thread) && g.threads[thread].Proven? then
        var Proven(t, row) := g.threads[thread];
        if row.userId in Scoped(g.db.users, t.tid)
        then Some(Records(Goes(g, thread, UserKnown(t, row)), UserFound(thread, t, row)))
        else Some(Goes(g, thread, Done))
      else None
    case Issue(thread, refresh, now) =>
      if At(g, thread) && g.threads[thread].UserKnown? && refresh !in g.db.refreshTokens then
        var UserKnown(t, row) := g.threads[thread];
        var token := RefreshToken(t.tid, row.clientId, row.userId, row.scope, now + REFRESH_TTL, false);
        Some(Records(Goes(g, thread, Done), TokensIssued(thread, t, row, refresh))
             .(db := After(g.db, CreateRefreshToken(refresh, token))))
      else None
  }

  function Run(crypto: Crypto, g: Grants, ls: seq<Label>): Option<Grants> {
    if ls == [] then Some(g)
    else
      match Run(crypto, g, ls[..|ls| - 1])
      case None => None
      case Some(h) => Step(crypto, h, ls[|ls| - 1])
  }

  predicate Init(g: Grants) {
    g.db.authCodes == map[] && g.threads == map[] && g.given == {} && g.history == []
  }

  // --- What each event rests on ---

  /** The row is the one this authorization stored, used or not. */
  predicate StoredAs(e: Event, code: Id, row: AuthCode) {
    e.CodeStored? && e.code == code && row == NewCode(e.a, e.userId, e.expiresAt).(used := row.used)
  }

  ghost predicate Stored(history: seq<Event>, code: Id, row: AuthCode) {
    exists k :: 0 <= k < |history| && StoredAs(history[k], code, row)
  }

  ghost predicate IsSpent(history: seq<Event>, code: Id) {
    exists k :: 0 <= k < |history| && history[k].CodeSpent? && history[k].t.code == code
  }

  ghost predicate WasStored(history: seq<Event>, code: Id) {
    exists k :: 0 <= k < |history| && history[k].CodeStored? && history[k].code == code
  }

  /** Nothing was issued to this request yet. */
  ghost predicate NoneIssued(history: seq<Event>, thread: nat) {
    forall k :: 0 <= k < |history| && history[k].TokensIssued? ==> history[k].thread != thread
  }

  ghost predicate SpentBy(history: seq<Event>, thread: nat, t: TokenRequest) {
    exists now :: CodeSpent(thread, t, now) in history
  }

  ghost predicate ProvenBy(crypto: Crypto, history: seq<Event>, thread: nat, t: TokenRequest, row: AuthCode) {
    exists hash :: ProofShown(thread, t, row, hash) in history
  }

  /** What the events before it must contain for an event to happen. */
  ghost predicate Justified(crypto: Crypto, before: seq<Event>, e: Event) {
    match e
    case ClientChecked(_, _) => true
    case UserSignedIn(thread, a, _) => ClientChecked(thread, a) in before
    case CodeStored(thread, a, userId, code, _) => UserSignedIn(thread, a, userId) in before && !WasStored(before, code)
    case CodeSpent(_, t, now) =>
      && !IsSpent(before, t.code)
      && exists row :: Stored(before, t.code, row) && row.tenantId == t.tid && now < row.expiresAt
    case ProofShown(thread, t, row, hash) =>
      && SpentBy(before, thread, t) && Stored(before, t.code, row) && row.tenantId == t.tid
      && Shown(crypto, t, row, hash)
    case UserFound(thread, t, row) => ProvenBy(crypto, before, thread, t, row)
    case TokensIssued(thread, t, row, _) => UserFound(thread, t, row) in before && NoneIssued(before, thread)
  }

  ghost predicate AllJustified(crypto: Crypto, history: seq<Event>) {
    forall i :: 0 <= i < |history| ==> Justified(crypto, history[..i], history[i])
  }

  ghost predicate PhaseOk(crypto: Crypto, history: seq<Event>, thread: nat, phase: Phase) {
    && (!phase.Done? ==> NoneIssued(history, thread))
    && match phase
       case ClientKnown(a) => ClientChecked(thread, a) in history
       case SignedIn(a, userId) => UserSignedIn(thread, a, userId) in history
       case Spent(t) => SpentBy(history, thread, t)
       case Loaded(t, row) => SpentBy(history, thread, t) && Stored(history, t.code, row) && row.tenantId == t.tid
       case Proven(t, row) => ProvenBy(crypto, history, thread, t, row)
       case UserKnown(t, row) => UserFound(thread, t, row) in history
       case Done => true
  }

  ghost predicate CodesOk(db: Tables, given: set<Id>, history: seq<Event>) {
    && (forall c :: c in db.authCodes ==> c in given && Stored(history, c, db.authCodes[c]))
    && (forall c :: IsSpent(history, c) ==> c in given && (c in db.authCodes ==> db.authCodes[c].used))
    && (forall c :: WasStored(history, c) ==> c in given)
  }

  ghost predicate Inv(crypto: Crypto, g: Grants) {
    && AllJustified(crypto, g.history)
    && (forall th :: th in g.threads ==> PhaseOk(crypto, g.history, th, g.threads[th]))
    && (forall th :: th !in g.threads ==> NoneIssued(g.history, th))
    && CodesOk(g.db, g.given, g.history)
  }

  // --- Growing the history ---

  lemma JustifiedMore(crypto: Crypto, history: seq<Event>, e: Event)
    requires AllJustified(crypto, history) && Justified(crypto, history, e)
    ensures AllJustified(crypto, history + [e])
  {
    var more := history + [e];
    forall i | 0 <= i < |more|
      ensures Justified(crypto, more[..i], more[i])
    {
      assert more[..i] == if i < |history| then history[..i] else history;
    }
  }

  lemma StoredMore(history: seq<Event>, e: Event, code: Id, row: AuthCode)
    requires Stored(history, code, row)
    ensures Stored(history + [e], code, row)
  {
    var k :| 0 <= k < |history| && StoredAs(history[k], code, row);
    assert StoredAs((history + [e])[k], code, row);
  }

  lemma PhaseStays(crypto: Crypto, history: seq<Event>, e: Event, thread: nat, phase: Phase)
    requires PhaseOk(crypto, history, thread, phase) && (e.TokensIssued? ==> e.thread != thread)
    ensures PhaseOk(crypto, history + [e], thread, phase)
  {
    if phase.Loaded? {
      StoredMore(history, e, phase.t.code, phase.row);
    }
  }

  lemma SpentMore(history: seq<Event>, e: Event, c: Id)
    ensures IsSpent(history + [e], c) <==> IsSpent(history, c) || (e.CodeSpent? && e.t.code == c)
  {
    if IsSpent(history, c) {
      var k :| 0 <= k < |history| && history[k].CodeSpent? && history[k].t.code == c;
      assert (history + [e])[k] == history[k];
    }
    if e.CodeSpent? && e.t.code == c {
      assert (history + [e])[|history|] == e;
    }
  }

  lemma WasStoredMore(history: seq<Event>, e: Event, c: Id)
    ensures WasStored(history + [e], c) ==> WasStored(history, c) || (e.CodeStored? && e.code == c)
  {
    if WasStored(history + [e], c) {
      var k :| 0 <= k < |history| + 1 && (history + [e])[k].CodeStored? && (history + [e])[k].code == c;
      assert k < |history| ==> history[k] == (history + [e])[k];
    }
  }

  lemma NoneIssuedMore(history: seq<Event>, e: Event, thread: nat)
    requires NoneIssued(history, thread) && (e.TokensIssued? ==> e.thread != thread)
    ensures NoneIssued(history + [e], thread)
  {
  }

  /** A justified event, with the request of that event where the event puts it, keeps the invariant. */
  lemma EventKeeps(crypto: Crypto, g: Grants, e: Event, phase: Phase, db: Tables, given: set<Id>)
    requires Inv(crypto, g) && Justified(crypto, g.history, e)
    requires PhaseOk(crypto, g.history + [e], e.thread, phase)
    requires CodesOk(db, given, g.history + [e])
    ensures Inv(crypto, Records(Goes(g, e.thread, phase), e).(db := db, given := given))
  {
    hide PhaseOk, Justified, AllJustified, NoneIssued, CodesOk;
    var more := g.history + [e];
    JustifiedMore(crypto, g.history, e);
    forall th | th in g.threads && th != e.thread
      ensures PhaseOk(crypto, more, th, g.threads[th])
    {
      PhaseStays(crypto, g.history, e, th, g.threads[th]);
    }
    forall th | th !in g.threads && th != e.thread
      ensures NoneIssued(more, th)
    {
      NoneIssuedMore(g.history, e, th);
    }
  }

  /** Events other than a use or a new code leave what is known of the codes as it is. */
  lemma CodesStay(history: seq<Event>, e: Event, db: Tables, given: set<Id>, after: Tables)
    requires CodesOk(db, given, history) && !e.CodeSpent? && !e.CodeStored? && after.authCodes == db.authCodes
    ensures CodesOk(after, given, history + [e])
  {
    hide Stored, IsSpent, WasStored;
    forall c | c in db.authCodes
      ensures Stored(history + [e], c, db.authCodes[c])
    {
      StoredMore(history, e, c, db.authCodes[c]);
    }
    forall c | IsSpent(history + [e], c)
      ensures IsSpent(history, c)
    {
      SpentMore(history, e, c);
    }
    forall c | WasStored(history + [e], c)
      ensures WasStored(history, c)
    {
      WasStoredMore(history, e, c);
    }
  }

  lemma CodesAfterStore(history: seq<Event>, e: Event, db: Tables, given: set<Id>)
    requires CodesOk(db, given, history) && e.CodeStored? && e.code !in given
    ensures
      var row := NewCode(e.a, e.userId, e.expiresAt);
      CodesOk(db.(authCodes := db.authCodes[e.code := row]), given + {e.code}, history + [e])
  {
    var more, row := history + [e], NewCode(e.a, e.userId, e.expiresAt);
    assert Stored(more, e.code, row) by {
      assert StoredAs(more[|history|], e.code, row);
    }
    hide Stored, IsSpent, WasStored, NewCode;
    forall c | c in db.authCodes
      ensures Stored(more, c, db.authCodes[c])
    {
      StoredMore(history, e, c, db.authCodes[c]);
    }
    forall c | IsSpent(more, c)
      ensures IsSpent(history, c)
    {
      SpentMore(history, e, c);
    }
    forall c | WasStored(more, c)
      ensures WasStored(history, c) || (e.CodeStored? && e.code == c)
    {
      WasStoredMore(history, e, c);
    }
  }

  lemma CodesAfterSpend(history: seq<Event>, e: Event, db: Tables, given: set<Id>)
    requires CodesOk(db, given, history) && e.CodeSpent? && e.t.code in db.authCodes
    ensures CodesOk(db.(authCodes := db.authCodes[e.t.code := db.authCodes[e.t.code].(used := true)]), given,
                    history + [e])
  {
    var more := history + [e];
    hide Stored, IsSpent, WasStored;
    forall c | c in db.authCodes
      ensures Stored(more, c, db.authCodes[c])
    {
      StoredMore(history, e, c, db.authCodes[c]);
    }
    UsedIsStored(more, e.t.code, db.authCodes[e.t.code]);
    forall c | IsSpent(more, c)
      ensures IsSpent(history, c) || c == e.t.code
    {
      SpentMore(history, e, c);
    }
    forall c | WasStored(more, c)
      ensures WasStored(history, c)
    {
      WasStoredMore(history, e, c);
    }
  }

  lemma UsedIsStored(history: seq<Event>, code: Id, row: AuthCode)
    requires Stored(history, code, row)
    ensures Stored(history, code, row.(used := true))
  {
    var k :| 0 <= k < |history| && StoredAs(history[k], code, row);
    assert StoredAs(history[k], code, row.(used := true));
  }

  // --- Every step keeps the invariant ---

  lemma OtherKeeps(crypto: Crypto, g: Grants, op: Op)
    requires Inv(crypto, g) && OtherOp(op)
    ensures Inv(crypto, g.(db := After(g.db, op)))
  {
    hide After, PhaseOk, AllJustified, Stored, IsSpent;
    forall c | c in After(g.db, op).authCodes
      ensures c in g.db.authCodes && After(g.db, op).authCodes[c] == g.db.authCodes[c]
    {
      CodesFramed(g.db, op, c);
    }
  }

  /** Moving a request on without an event. */
  lemma QuietKeeps(crypto: Crypto, g: Grants, thread: nat, phase: Phase)
    requires Inv(crypto, g) && thread in g.threads && PhaseOk(crypto, g.history, thread, phase)
    ensures Inv(crypto, Goes(g, thread, phase))
  {
    hide PhaseOk, AllJustified, CodesOk;
  }

  lemma CheckKeeps(crypto: Crypto, g: Grants, thread: nat, a: AuthorizeRequest)
    requires Inv(crypto, g) && Step(crypto, g, CheckClient(thread, a)).Some?
    ensures Inv(crypto, Step(crypto, g, CheckClient(thread, a)).value)
  {
    var e := ClientChecked(thread, a);
    NoneIssuedMore(g.history, e, thread);
    assert PhaseOk(crypto, g.history + [e], thread, ClientKnown(a));
    hide AllJustified, CodesOk, PhaseOk, NoneIssued;
    CodesStay(g.history, e, g.db, g.given, g.db);
    EventKeeps(crypto, g, e, ClientKnown(a), g.db, g.given);
    hide Inv;
  }

  lemma SignInKeeps(crypto: Crypto, g: Grants, thread: nat, userId: Id)
    requires Inv(crypto, g) && Step(crypto, g, SignIn(thread, userId)).Some?
    ensures Inv(crypto, Step(crypto, g, SignIn(thread, userId)).value)
  {
    var a := g.threads[thread].a;
    var e := UserSignedIn(thread, a, userId);
    assert PhaseOk(crypto, g.history, thread, g.threads[thread]);
    NoneIssuedMore(g.history, e, thread);
    assert PhaseOk(crypto, g.history + [e], thread, SignedIn(a, userId));
    hide AllJustified, CodesOk, PhaseOk, NoneIssued;
    CodesStay(g.history, e, g.db, g.given, g.db);
    EventKeeps(crypto, g, e, SignedIn(a, userId), g.db, g.given);
    hide Inv;
  }

  lemma StoreKeeps(crypto: Crypto, g: Grants, thread: nat, code: Id, now: Time)
    requires Inv(crypto, g) && Step(crypto, g, StoreCode(thread, code, now)).Some?
    ensures Inv(crypto, Step(crypto, g, StoreCode(thread, code, now)).value)
  {
    hide AllJustified, Stored, IsSpent, NoneIssued, PhaseOk, Justified, After, NewCode;
    var SignedIn(a, userId) := g.threads[thread];
    var e := CodeStored(thread, a, userId, code, now + CODE_TTL);
    assert PhaseOk(crypto, g.history, thread, SignedIn(a, userId));
    assert code !in g.db.authCodes && !WasStored(g.history, code);
    hide CodesOk, WasStored;
    StoreJustified(crypto, g.history, thread, a, userId, code, now + CODE_TTL);
    StoreIs(g.db, code, NewCode(a, userId, now + CODE_TTL));
    DoneIsOk(crypto, g.history + [e], thread);
    CodesAfterStore(g.history, e, g.db, g.given);
    EventKeeps(crypto, g, e, Done, After(g.db, CreateAuthCode(code, NewCode(a, userId, now + CODE_TTL))),
               g.given + {code});
    hide Inv;
  }

  lemma StoreJustified(crypto: Crypto, history: seq<Event>, thread: nat, a: AuthorizeRequest, userId: Id, code: Id,
                       at: Time)
    requires PhaseOk(crypto, history, thread, SignedIn(a, userId)) && !WasStored(history, code)
    ensures Justified(crypto, history, CodeStored(thread, a, userId, code, at))
  {
  }

  lemma DoneIsOk(crypto: Crypto, history: seq<Event>, thread: nat)
    ensures PhaseOk(crypto, history, thread, Done)
  {
  }

  lemma StoreIs(db: Tables, code: Id, row: AuthCode)
    requires code !in db.authCodes
    ensures After(db, CreateAuthCode(code, row)) == db.(authCodes := db.authCodes[code := row])
  {
  }

  lemma SpendIs(db: Tables, tid: Id, code: Id, now: Time)
    requires CodeAccepted(db, tid, code, now)
    ensures After(db, UseAuthCode(tid, code, now))
         == db.(authCodes := db.authCodes[code := db.authCodes[code].(used := true)])
  {
  }

  lemma SpendKeeps(crypto: Crypto, g: Grants, thread: nat, t: TokenRequest, now: Time)
    requires Inv(crypto, g) && Step(crypto, g, Spend(thread, t, now)).Some?
    ensures Inv(crypto, Step(crypto, g, Spend(thread, t, now)).value)
  {
    hide AllJustified, Stored, IsSpent, NoneIssued, PhaseOk, Justified, After;
    var e, row := CodeSpent(thread, t, now), g.db.authCodes[t.code];
    assert NoneIssued(g.history, thread);
    assert Stored(g.history, t.code, row) && !IsSpent(g.history, t.code);
    SpendIs(g.db, t.tid, t.code, now);
    hide CodesOk;
    SpendJustified(crypto, g.history, thread, t, now, row);
    CodesAfterSpend(g.history, e, g.db, g.given);
    hide CodeAccepted;
    EventKeeps(crypto, g, e, Spent(t), After(g.db, UseAuthCode(t.tid, t.code, now)), g.given);
    hide Inv;
  }

  lemma SpendJustified(crypto: Crypto, history: seq<Event>, thread: nat, t: TokenRequest, now: Time, row: AuthCode)
    requires Stored(history, t.code, row) && !IsSpent(history, t.code) && row.tenantId == t.tid && now < row.expiresAt
    requires NoneIssued(history, thread)
    ensures Justified(crypto, history, CodeSpent(thread, t, now))
    ensures PhaseOk(crypto, history + [CodeSpent(thread, t, now)], thread, Spent(t))
  {
    var e := CodeSpent(thread, t, now);
    hide Stored, IsSpent;
    NoneIssuedMore(history, e, thread);
    hide NoneIssued;
    assert e in history + [e];
  }

  lemma LoadKeeps(crypto: Crypto, g: Grants, thread: nat)
    requires Inv(crypto, g) && Step(crypto, g, LoadCode(thread)).Some?
    ensures Inv(crypto, Step(crypto, g, LoadCode(thread)).value)
  {
    hide AllJustified, Stored, IsSpent, NoneIssued;
    var t := g.threads[thread].t;
    assert PhaseOk(crypto, g.history, thread, g.threads[thread]);
    if t.code in g.db.authCodes && g.db.authCodes[t.code].tenantId == t.tid {
      QuietKeeps(crypto, g, thread, Loaded(t, g.db.authCodes[t.code]));
    } else {
      QuietKeeps(crypto, g, thread, Done);
    }
    hide Inv;
  }

  lemma ProveKeeps(crypto: Crypto, g: Grants, thread: nat)
    requires Inv(crypto, g) && Step(crypto, g, Prove(thread)).Some?
    ensures Inv(crypto, Step(crypto, g, Prove(thread)).value)
  {
    hide AllJustified, Stored, IsSpent, CodesOk, Shown, ClientHash;
    var Loaded(t, row) := g.threads[thread];
    var hash := ClientHash(g.db, t.tid, row.clientId);
    assert PhaseOk(crypto, g.history, thread, g.threads[thread]);
    if Shown(crypto, t, row, hash) {
      var e := ProofShown(thread, t, row, hash);
      NoneIssuedMore(g.history, e, thread);
      assert PhaseOk(crypto, g.history + [e], thread, Proven(t, row)) by {
        assert ProofShown(thread, t, row, hash) in g.history + [e];
      }
      hide PhaseOk, NoneIssued;
      CodesStay(g.history, e, g.db, g.given, g.db);
      EventKeeps(crypto, g, e, Proven(t, row), g.db, g.given);
    } else {
      QuietKeeps(crypto, g, thread, Done);
    }
    hide Inv;
  }

  lemma FindKeeps(crypto: Crypto, g: Grants, thread: nat)
    requires Inv(crypto, g) && Step(crypto, g, FindUser(thread)).Some?
    ensures Inv(crypto, Step(crypto, g, FindUser(thread)).value)
  {
    hide AllJustified, Stored, IsSpent, CodesOk, Scoped;
    var Proven(t, row) := g.threads[thread];
    assert PhaseOk(crypto, g.history, thread, g.threads[thread]);
    if row.userId in Scoped(g.db.users, t.tid) {
      var e := UserFound(thread, t, row);
      NoneIssuedMore(g.history, e, thread);
      assert PhaseOk(crypto, g.history + [e], thread, UserKnown(t, row)) by {
        assert e in g.history + [e];
      }
      hide PhaseOk, NoneIssued;
      CodesStay(g.history, e, g.db, g.given, g.db);
      EventKeeps(crypto, g, e, UserKnown(t, row), g.db, g.given);
    } else {
      QuietKeeps(crypto, g, thread, Done);
    }
    hide Inv;
  }

  lemma IssueKeeps(crypto: Crypto, g: Grants, thread: nat, refresh: Id, now: Time)
    requires Inv(crypto, g) && Step(crypto, g, Issue(thread, refresh, now)).Some?
    ensures Inv(crypto, Step(crypto, g, Issue(thread, refresh, now)).value)
  {
    hide AllJustified, Stored, IsSpent, NoneIssued, PhaseOk, Justified, After, CodesOk;
    var UserKnown(t, row) := g.threads[thread];
    var token := RefreshToken(t.tid, row.clientId, row.userId, row.scope, now + REFRESH_TTL, false);
    var e := TokensIssued(thread, t, row, refresh);
    assert PhaseOk(crypto, g.history, thread, UserKnown(t, row));
    IssueJustified(crypto, g.history, thread, t, row, refresh);
    DoneIsOk(crypto, g.history + [e], thread);
    CodesApart(g.db, refresh, token);
    CodesStay(g.history, e, g.db, g.given, After(g.db, CreateRefreshToken(refresh, token)));
    EventKeeps(crypto, g, e, Done, After(g.db, CreateRefreshToken(refresh, token)), g.given);
    hide Inv;
  }

  lemma IssueJustified(crypto: Crypto, history: seq<Event>, thread: nat, t: TokenRequest, row: AuthCode, refresh: Id)
    requires PhaseOk(crypto, history, thread, UserKnown(t, row))
    ensures Justified(crypto, history, TokensIssued(thread, t, row, refresh))
  {
  }

  lemma CodesApart(db: Tables, token: Id, row: RefreshToken)
    ensures After(db, CreateRefreshToken(token, row)).authCodes == db.authCodes
  {
  }

  lemma StepKeepsInv(crypto: Crypto, g: Grants, l: Label)
    requires Inv(crypto, g) && Step(crypto, g, l).Some?
    ensures Inv(crypto, Step(crypto, g, l).value)
  {
    if l.Handle? {
      hide Inv, After;
      OtherKeeps(crypto, g, l.op);
    } else {
      hide Inv, Step;
      match l
      case CheckClient(thread, a) => CheckKeeps(crypto, g, thread, a);
      case SignIn(thread, userId) => SignInKeeps(crypto, g, thread, userId);
      case StoreCode(thread, code, now) => StoreKeeps(crypto, g, thread, code, now);
      case Spend(thread, t, now) => SpendKeeps(crypto, g, thread, t, now);
      case LoadCode(thread) => LoadKeeps(crypto, g, thread);
      case Prove(thread) => ProveKeeps(crypto, g, thread);
      case FindUser(thread) => FindKeeps(crypto, g, thread);
      case Issue(thread, refresh, now) => IssueKeeps(crypto, g, thread, refresh, now);
      case _ =>
    }
  }

  lemma {:induction false} RunKeepsInv(crypto: Crypto, g: Grants, ls: seq<Label>)
    requires Init(g) && Run(crypto, g, ls).Some?
    ensures Inv(crypto, Run(crypto, g, ls).value)
  {
    hide Step;
    if ls != [] {
      hide Inv, Init;
      var n := |ls| - 1;
      RunKeepsInv(crypto, g, ls[..n]);
      StepKeepsInv(crypto, Run(crypto, g, ls[..n]).value, ls[n]);
    }
  }

  // --- The promises of the grant ---

  /** A code is accepted at most once, and only in the tenant that issued it and before it expires. */
  lemma CodesAreSpentOnce(crypto: Crypto, g: Grants, ls: seq<Label>, i: nat)
    requires Init(g) && Run(crypto, g, ls).Some?
    requires i < |Run(crypto, g, ls).value.history| && Run(crypto, g, ls).value.history[i].CodeSpent?
    ensures
      var h := Run(crypto, g, ls).value.history;
      && (exists k :: 0 <= k < i && h[k].CodeStored? && h[k].code == h[i].t.code && h[k].a.tid == h[i].t.tid
                      && h[i].now < h[k].expiresAt)
      && (forall j :: 0 <= j < |h| && h[j].CodeSpent? && h[j].t.code == h[i].t.code ==> j == i)
  {
    RunKeepsInv(crypto, g, ls);
    var h := Run(crypto, g, ls).value.history;
    SpentJustified(crypto, h, i);
    forall j | 0 <= j < |h| && h[j].CodeSpent? && h[j].t.code == h[i].t.code
      ensures j == i
    {
      SpentJustified(crypto, h, j);
    }
  }

  lemma SpentJustified(crypto: Crypto, h: seq<Event>, i: nat)
    requires AllJustified(crypto, h) && i < |h| && h[i].CodeSpent?
    ensures forall j :: 0 <= j < i && h[j].CodeSpent? ==> h[j].t.code != h[i].t.code
    ensures exists k :: 0 <= k < i && h[k].CodeStored? && h[k].code == h[i].t.code && h[k].a.tid == h[i].t.tid
                        && h[i].now < h[k].expiresAt
  {
    assert Justified(crypto, h[..i], h[i]);
    var row :| Stored(h[..i], h[i].t.code, row) && row.tenantId == h[i].t.tid && h[i].now < row.expiresAt;
    var k :| 0 <= k < i && StoredAs(h[..i][k], h[i].t.code, row);
    assert h[k].CodeStored?;
    forall j | 0 <= j < i && h[j].CodeSpent?
      ensures h[j].t.code != h[i].t.code
    {
      assert h[..i][j] == h[j];
    }
  }

  /**
   * The tokens of event i come from the authorization request of event k: the same tenant, client, user, scope and
   * nonce; the user had signed in and the redirect URI was registered for the client; and the redeemer showed the
   * preimage of the S256 challenge (RFC 7636 section 4.6) or, without a challenge, the client's secret.
   */
  ghost predicate Traces(crypto: Crypto, h: seq<Event>, i: nat, c: nat, s: nat, k: nat, x: nat, q: nat,
                         f: nat)
    requires i < |h| && h[i].TokensIssued?
  {
    && c < s < k < x < q < f < i && h[f] == UserFound(h[i].thread, h[i].t, h[i].row)
    && h[k].CodeStored? && h[k].code == h[i].t.code && h[k].a.tid == h[i].t.tid
    && h[i].row == NewCode(h[k].a, h[k].userId, h[k].expiresAt).(used := h[i].row.used)
    && h[c] == ClientChecked(h[k].thread, h[k].a) && h[s] == UserSignedIn(h[k].thread, h[k].a, h[k].userId)
    && h[x].CodeSpent? && h[x].thread == h[i].thread && h[x].t == h[i].t
    && h[q].ProofShown? && h[q].thread == h[i].thread && h[q].t == h[i].t && h[q].row == h[i].row
    && Shown(crypto, h[i].t, h[i].row, h[q].hash)
  }

  lemma Located(h: seq<Event>, i: nat, e: Event) returns (j: nat)
    requires i <= |h| && e in h[..i]
    ensures j < i && h[j] == e
  {
    j :| 0 <= j < i && h[..i][j] == e;
  }

  lemma SpentByTrace(crypto: Crypto, h: seq<Event>, thread: nat, t: TokenRequest, n: nat) returns (x: nat)
    requires n <= |h| && SpentBy(h[..n], thread, t)
    ensures x < n && h[x].CodeSpent? && h[x].thread == thread && h[x].t == t
  {
    var now :| CodeSpent(thread, t, now) in h[..n];
    x := Located(h, n, CodeSpent(thread, t, now));
  }

  lemma StoredTrace(crypto: Crypto, h: seq<Event>, code: Id, row: AuthCode, n: nat) returns (c: nat, s: nat, k: nat)
    requires AllJustified(crypto, h) && n <= |h| && Stored(h[..n], code, row)
    ensures c < s < k < n && StoredAs(h[k], code, row)
    ensures h[c] == ClientChecked(h[k].thread, h[k].a) && h[s] == UserSignedIn(h[k].thread, h[k].a, h[k].userId)
  {
    k :| 0 <= k < n && StoredAs(h[..n][k], code, row);
    JustifiedAt(crypto, h, k);
    hide AllJustified;
    s := Located(h, k, UserSignedIn(h[k].thread, h[k].a, h[k].userId));
    JustifiedAt(crypto, h, s);
    c := Located(h, s, ClientChecked(h[k].thread, h[k].a));
  }

  lemma JustifiedAt(crypto: Crypto, h: seq<Event>, i: nat)
    requires AllJustified(crypto, h) && i < |h|
    ensures Justified(crypto, h[..i], h[i])
  {
  }

  lemma TokensTrace(crypto: Crypto, h: seq<Event>, i: nat)
    returns (c: nat, s: nat, k: nat, x: nat, q: nat, f: nat)
    requires AllJustified(crypto, h) && i < |h| && h[i].TokensIssued?
    ensures Traces(crypto, h, i, c, s, k, x, q, f)
  {
    hide Shown, AllJustified, Stored, SpentBy, StoredAs, IsSpent, NoneIssued;
    JustifiedAt(crypto, h, i);
    f := Located(h, i, UserFound(h[i].thread, h[i].t, h[i].row));
    JustifiedAt(crypto, h, f);
    var hash :| ProofShown(h[i].thread, h[i].t, h[i].row, hash) in h[..f];
    q := Located(h, f, ProofShown(h[i].thread, h[i].t, h[i].row, hash));
    JustifiedAt(crypto, h, q);
    x := SpentByTrace(crypto, h, h[i].thread, h[i].t, q);
    c, s, k := StoredTrace(crypto, h, h[i].t.code, h[i].row, q);
    assert && h[k].code == h[i].t.code
           && h[i].row == NewCode(h[k].a, h[k].userId, h[k].expiresAt).(used := h[i].row.used) by {
      StoredIs(h[k], h[i].t.code, h[i].row);
    }
    hide NewCode;
    JustifiedTenant(crypto, h, q);
    StoredBeforeSpent(crypto, h, k, x);
  }

  /** A code is stored once, so the authorization that stored it came before it was spent. */
  lemma StoredBeforeSpent(crypto: Crypto, h: seq<Event>, k: nat, x: nat)
    requires AllJustified(crypto, h) && k < |h| && x < |h|
    requires h[k].CodeStored? && h[x].CodeSpent? && h[x].t.code == h[k].code
    ensures k < x
  {
    SpentJustified(crypto, h, x);
    var j :| 0 <= j < x && h[j].CodeStored? && h[j].code == h[x].t.code;
    hide AllJustified;
    if j < k {
      StoredOnce(crypto, h, j, k);
    } else if k < j {
      StoredOnce(crypto, h, k, j);
    }
  }

  lemma StoredOnce(crypto: Crypto, h: seq<Event>, j: nat, k: nat)
    requires AllJustified(crypto, h) && j < k < |h| && h[j].CodeStored? && h[k].CodeStored?
    ensures h[j].code != h[k].code
  {
    JustifiedAt(crypto, h, k);
    assert h[..k][j] == h[j];
  }

  lemma StoredIs(e: Event, code: Id, row: AuthCode)
    requires StoredAs(e, code, row)
    ensures e.CodeStored? && e.code == code && row == NewCode(e.a, e.userId, e.expiresAt).(used := row.used)
  {
  }

  lemma JustifiedTenant(crypto: Crypto, h: seq<Event>, q: nat)
    requires q < |h| && h[q].ProofShown? && Justified(crypto, h[..q], h[q])
    ensures h[q].row.tenantId == h[q].t.tid && Shown(crypto, h[q].t, h[q].row, h[q].hash)
  {
    hide Shown, Stored, SpentBy;
  }

  lemma OnePerThread(crypto: Crypto, h: seq<Event>, i: nat, j: nat)
    requires AllJustified(crypto, h) && i < j < |h| && h[i].TokensIssued? && h[j].TokensIssued?
    ensures h[i].thread != h[j].thread
  {
    JustifiedAt(crypto, h, j);
    assert h[..j][i] == h[i];
  }

  lemma OnePerCode(crypto: Crypto, h: seq<Event>, i: nat, j: nat)
    requires AllJustified(crypto, h) && i < j < |h| && h[i].TokensIssued? && h[j].TokensIssued?
    ensures h[i].t.code != h[j].t.code
  {
    hide Shown, NewCode, AllJustified;
    var _, _, _, x, _, _ := TokensTrace(crypto, h, i);
    var _, _, _, y, _, _ := TokensTrace(crypto, h, j);
    OnePerThread(crypto, h, i, j);
    SpentJustified(crypto, h, if x < y then y else x);
  }
}

/**
 * Password reset tokens (backend/iam/store.go): the request, the lookup and the compare-and-set that spends a token are
 * single statements, with lookups of several requests and every other operation in between.
 */
module PasswordReset {
  import opened Wrappers
  import opened Schema
  import opened StoreOps
  import opened PeopleFrames

  datatype Found = Found(tid: Id, userId: Id, token: Id)

  datatype Resets = Resets(db: Tables, pending: map<nat, Found>, given: set<Id>)

  datatype Label =
    | Handle(op: Op)
    | Request(tid: Id, userId: Id, token: Id, now: Time)
    | Find(thread: nat, tid: Id, userId: Id, token: Id, now: Time)
    | Spend(thread: nat, hash: string)

  const RESET_TOKEN_TTL := 3600

  /** Users are created without a reset token, and only the two statements below touch one. */
  predicate OtherOp(op: Op) {
    && !op.SetResetToken? && !op.SpendResetToken?
    && (op.CreateUser? || op.Activate? ==> op.user.reset.None?)
  }

  predicate Holds(db: Tables, u: Id, token: Id) {
    u in db.users && db.users[u].reset.Some? && db.users[u].reset.value.token == token
  }

  function Step(w: Resets, l: Label): Option<Resets> {
    match l
    case Handle(op) => if OtherOp(op) then Some(w.(db := After(w.db, op))) else None
    case Request(tid, userId, token, now) =>
      if token in w.given then None
      else
        Some(w.(db := After(w.db, SetResetToken(tid, userId, ResetToken(token, now + RESET_TOKEN_TTL))),
                given := w.given + {token}))
    case Find(thread, tid, userId, token, now) =>
      if thread !in w.pending && ResetMatches(w.db, tid, userId, token)
         && now < w.db.users[userId].reset.value.expiresAt
      then Some(w.(pending := w.pending[thread := Found(tid, userId, token)]))
      else None
    case Spend(thread, hash) =>
      if thread !in w.pending then None
      else
        var Found(tid, userId, token) := w.pending[thread];
        Some(w.(db := After(w.db, SpendResetToken(tid, userId, token, hash))))
  }

  function Run(w: Resets, ls: seq<Label>): Option<Resets> {
    if ls == [] then Some(w)
    else
      match Run(w, ls[..|ls| - 1])
      case None => None
      case Some(v) => Step(v, ls[|ls| - 1])
  }

  ghost predicate Init(w: Resets) {
    w.pending == map[] && w.given == {} && forall u, t :: !Holds(w.db, u, t)
  }

  // --- Frames ---

  /** No user gains a reset token or changes it, or its tenant. */
  ghost predicate NoNewTokens(db: Tables, after: Tables) {
    forall u :: u in after.users && after.users[u].reset.Some? ==>
      u in db.users && db.users[u].reset == after.users[u].reset && db.users[u].tenantId == after.users[u].tenantId
  }

  lemma SameUsersSameTokens(db: Tables, after: Tables)
    requires forall u :: u in after.users ==>
               (u in db.users && after.users[u] == db.users[u]) || after.users[u].reset.None?
    ensures NoNewTokens(db, after)
  {
  }

  lemma DeleteOwnedUsers(db: Tables, table: TenantTable, tid: Id)
    requires DeleteOwned(db, table, tid).Some?
    ensures forall u :: u in DeleteOwned(db, table, tid).value.users ==>
      u in db.users && DeleteOwned(db, table, tid).value.users[u] == db.users[u]
  {
    hide CampaignsOf, ContactsOf, SegmentsOf;
  }

  lemma {:induction false} CascadeUsers(db: Tables, tables: seq<TenantTable>, tid: Id)
    requires DeleteAllOwned(db, tables, tid).Some?
    ensures forall u :: u in DeleteAllOwned(db, tables, tid).value.users ==>
      u in db.users && DeleteAllOwned(db, tables, tid).value.users[u] == db.users[u]
  {
    hide DeleteOwned;
    if tables != [] {
      var n := |tables| - 1;
      CascadeUsers(db, tables[..n], tid);
      DeleteOwnedUsers(DeleteAllOwned(db, tables[..n], tid).value, tables[n], tid);
    }
  }

  lemma TenancyNoTokens(db: Tables, op: Op)
    requires TenancyOp(op)
    ensures NoNewTokens(db, After(db, op))
  {
    if op.DeleteTenant? {
      hide ExecUser, ExecToken, ExecContact, ExecSegment, ExecCampaign, ExecRecipient, DeleteAllOwned, NoNewTokens;
      if DeleteAllOwned(db, CASCADE, op.id).Some? {
        CascadeUsers(db, CASCADE, op.id);
      }
      SameUsersSameTokens(db, After(db, op));
    } else {
      hide After, NoNewTokens;
      TenancyPeople(db, op);
      SameUsersSameTokens(db, After(db, op));
    }
  }

  lemma EditKeepsReset(db: Tables, op: Op, u: Id)
    requires op.EditUser? || op.SetPassword?
    requires u in After(db, op).users
    ensures u in db.users && After(db, op).users[u].reset == db.users[u].reset
    ensures After(db, op).users[u].tenantId == db.users[u].tenantId
  {
    hide ExecTenancy, ExecToken, ExecContact, ExecSegment, ExecCampaign, ExecRecipient;
  }

  lemma InsertedUsers(db: Tables, op: Op, u: Id)
    requires op.CreateUser? || op.Activate?
    requires u in After(db, op).users
    ensures (u in db.users && After(db, op).users[u] == db.users[u]) || After(db, op).users[u] == op.user
  {
    hide ExecTenancy, ExecToken, ExecContact, ExecSegment, ExecCampaign, ExecRecipient, EmailTaken, ContactsOf;
  }

  lemma DeletedUsers(db: Tables, op: Op, u: Id)
    requires op.DeleteUser? && u in After(db, op).users
    ensures u in db.users && After(db, op).users[u] == db.users[u]
  {
    hide ExecTenancy, ExecToken, ExecContact, ExecSegment, ExecCampaign, ExecRecipient, Scoped;
  }

  lemma UserOpsNoTokens(db: Tables, op: Op)
    requires UserOp(op) && OtherOp(op)
    ensures NoNewTokens(db, After(db, op))
  {
    hide After;
    forall u | u in After(db, op).users && After(db, op).users[u].reset.Some?
      ensures u in db.users && db.users[u].reset == After(db, op).users[u].reset
      ensures db.users[u].tenantId == After(db, op).users[u].tenantId
    {
      if op.DeleteUser? {
        DeletedUsers(db, op, u);
      } else if op.CreateUser? || op.Activate? {
        InsertedUsers(db, op, u);
      } else {
        EditKeepsReset(db, op, u);
      }
    }
  }

  lemma OthersNoTokens(db: Tables, op: Op)
    requires OtherOp(op)
    ensures NoNewTokens(db, After(db, op))
  {
    hide After, NoNewTokens;
    if TenancyOp(op) {
      TenancyNoTokens(db, op);
    } else if UserOp(op) {
      UserOpsNoTokens(db, op);
    } else {
      if TokenOp(op) {
        TokenPeople(db, op);
      } else if ContactOp(op) {
        ContactOpsKeepUsers(db, op);
      } else if SegmentOp(op) {
        SegmentPeople(db, op);
      } else if CampaignOp(op) {
        CampaignPeople(db, op);
      } else {
        RecipientPeople(db, op);
      }
      SameUsersSameTokens(db, After(db, op));
    }
  }

  lemma RequestIs(db: Tables, tid: Id, userId: Id, reset: ResetToken)
    ensures
      After(db, SetResetToken(tid, userId, reset)) ==
      if userId in Scoped(db.users, tid) then db.(users := db.users[userId := db.users[userId].(reset := Some(reset))])
      else db
  {
    hide ExecTenancy, ExecToken, ExecContact, ExecSegment, ExecCampaign, ExecRecipient;
  }

  lemma SpendIs(db: Tables, tid: Id, userId: Id, token: Id, hash: string)
    ensures
      After(db, SpendResetToken(tid, userId, token, hash)) ==
      if ResetMatches(db, tid, userId, token) then
        db.(users := db.users[userId := db.users[userId].(passwordHash := hash, reset := None)])
      else db
  {
    hide ExecTenancy, ExecToken, ExecContact, ExecSegment, ExecCampaign, ExecRecipient;
  }

  // --- Where a token comes from, told by the steps of the run ---

  /** The state before step m; every prefix of a run is a run. */
  function StateAt(w: Resets, ls: seq<Label>, m: nat): Resets
    requires m <= |ls|
  {
    match Run(w, ls[..m])
    case None => w
    case Some(v) => v
  }

  lemma {:induction false} Stepped(w: Resets, ls: seq<Label>, m: nat)
    requires Run(w, ls).Some? && m < |ls|
    ensures Run(w, ls[..m]).Some? && Run(w, ls[..m + 1]).Some?
    ensures Step(StateAt(w, ls, m), ls[m]) == Some(StateAt(w, ls, m + 1))
  {
    hide Step;
    var n := |ls| - 1;
    if m == n {
      assert ls[..m + 1] == ls;
    } else {
      Stepped(w, ls[..n], m);
      assert ls[..n][..m] == ls[..m] && ls[..n][..m + 1] == ls[..m + 1];
    }
  }

  /** The user's token, its expiry and the user's tenant are those of the request. */
  predicate HeldSince(db: Tables, l: Label) {
    && l.Request? && l.userId in db.users && db.users[l.userId].tenantId == l.tid
    && db.users[l.userId].reset == Some(ResetToken(l.token, l.now + 3600))
  }

  /** A step that leaves a user with a token either found it there or is the request that gave it. */
  lemma StepGives(w: Resets, l: Label, u: Id)
    requires Step(w, l).Some? && u in Step(w, l).value.db.users && Step(w, l).value.db.users[u].reset.Some?
    ensures
      var v := Step(w, l).value;
      || (u in w.db.users && w.db.users[u].reset == v.db.users[u].reset
          && w.db.users[u].tenantId == v.db.users[u].tenantId)
      || (HeldSince(v.db, l) && l.userId == u)
  {
    hide After;
    match l
    case Handle(op) => OthersNoTokens(w.db, op);
    case Request(tid, userId, token, now) => RequestIs(w.db, tid, userId, ResetToken(token, now + RESET_TOKEN_TTL));
    case Find(_, _, _, _, _) =>
    case Spend(thread, hash) => {
      var f := w.pending[thread];
      SpendIs(w.db, f.tid, f.userId, f.token, hash);
    }
  }

  /** Whatever token a user has, one request gave it, and the user has had it ever since. */
  lemma {:induction false} TokenOrigin(w: Resets, ls: seq<Label>, n: nat, u: Id) returns (r: nat)
    requires Init(w) && Run(w, ls).Some? && n <= |ls|
    requires u in StateAt(w, ls, n).db.users && StateAt(w, ls, n).db.users[u].reset.Some?
    ensures r < n && ls[r].Request? && ls[r].userId == u
    ensures forall m :: r < m <= n ==> HeldSince(StateAt(w, ls, m).db, ls[r])
  {
    hide Step;
    assert ls[..0] == [] && StateAt(w, ls, 0) == w;
    hide Run;
    assert Holds(StateAt(w, ls, n).db, u, StateAt(w, ls, n).db.users[u].reset.value.token);
    hide Init;
    Stepped(w, ls, n - 1);
    StepGives(StateAt(w, ls, n - 1), ls[n - 1], u);
    var v, before := StateAt(w, ls, n).db, StateAt(w, ls, n - 1).db;
    if u in before.users && before.users[u].reset == v.users[u].reset
       && before.users[u].tenantId == v.users[u].tenantId {
      r := TokenOrigin(w, ls, n - 1, u);
      assert HeldSince(before, ls[r]);
    } else {
      r := n - 1;
    }
  }

  lemma {:induction false} GivenGrows(w: Resets, ls: seq<Label>, m: nat, n: nat)
    requires Run(w, ls).Some? && m <= n <= |ls|
    ensures StateAt(w, ls, m).given <= StateAt(w, ls, n).given
    decreases n - m
  {
    hide Step, Run;
    if m < n {
      GivenGrows(w, ls, m, n - 1);
      Stepped(w, ls, n - 1);
      StepGrows(StateAt(w, ls, n - 1), ls[n - 1]);
    }
  }

  lemma StepGrows(w: Resets, l: Label)
    requires Step(w, l).Some?
    ensures w.given <= Step(w, l).value.given
    ensures l.Request? ==> l.token !in w.given && l.token in Step(w, l).value.given
  {
    hide After;
  }

  /** No token is given twice. */
  lemma RequestedOnce(w: Resets, ls: seq<Label>, r: nat, q: nat)
    requires Run(w, ls).Some? && r < q < |ls| && ls[r].Request? && ls[q].Request?
    ensures ls[r].token != ls[q].token
  {
    hide Step, Run;
    Stepped(w, ls, r);
    StepGrows(StateAt(w, ls, r), ls[r]);
    GivenGrows(w, ls, r + 1, q);
    Stepped(w, ls, q);
    StepGrows(StateAt(w, ls, q), ls[q]);
  }

  /** The request that gave the user the token. */
  predicate GivenBy(l: Label, found: Found) {
    l.Request? && l.tid == found.tid && l.userId == found.userId && l.token == found.token
  }

  /** The lookup by which this thread found the token. */
  predicate FoundBy(l: Label, thread: nat, found: Found) {
    l.Find? && l.thread == thread && l.tid == found.tid && l.userId == found.userId && l.token == found.token
  }

  lemma {:induction false} LookupOf(w: Resets, ls: seq<Label>, n: nat, thread: nat) returns (f: nat)
    requires Init(w) && Run(w, ls).Some? && n <= |ls| && thread in StateAt(w, ls, n).pending
    ensures f < n && FoundBy(ls[f], thread, StateAt(w, ls, n).pending[thread])
  {
    hide Step;
    assert ls[..0] == [] && StateAt(w, ls, 0) == w;
    hide Run, Init;
    Stepped(w, ls, n - 1);
    StepFinds(StateAt(w, ls, n - 1), ls[n - 1], thread);
    if FoundBy(ls[n - 1], thread, StateAt(w, ls, n).pending[thread]) {
      f := n - 1;
    } else {
      f := LookupOf(w, ls, n - 1, thread);
    }
  }

  lemma StepFinds(w: Resets, l: Label, thread: nat)
    requires Step(w, l).Some? && thread in Step(w, l).value.pending
    ensures
      var v := Step(w, l).value;
      FoundBy(l, thread, v.pending[thread]) || (thread in w.pending && v.pending[thread] == w.pending[thread])
  {
    hide After, ResetMatches;
  }

  // --- At most once, in time, and never after a newer token ---

  /** Step n changes a password by this token. */
  ghost predicate Accepts(w: Resets, ls: seq<Label>, n: nat, found: Found) {
    && n < |ls| && ls[n].Spend? && ls[n].thread in StateAt(w, ls, n).pending
    && StateAt(w, ls, n).pending[ls[n].thread] == found
    && ResetMatches(StateAt(w, ls, n).db, found.tid, found.userId, found.token)
  }

  /** What an accepted token rests on: the request that gave it, and that the user has had it ever since. */
  lemma GivenAndKept(w: Resets, ls: seq<Label>, n: nat, found: Found) returns (r: nat)
    requires Init(w) && Run(w, ls).Some? && n <= |ls|
    requires ResetMatches(StateAt(w, ls, n).db, found.tid, found.userId, found.token)
    ensures r < n && GivenBy(ls[r], found)
    ensures forall m :: r < m <= n ==> HeldSince(StateAt(w, ls, m).db, ls[r])
  {
    hide Run, Step, Init;
    r := TokenOrigin(w, ls, n, found.userId);
    assert HeldSince(StateAt(w, ls, n).db, ls[r]);
  }

  lemma FindsInTime(w: Resets, ls: seq<Label>, f: nat)
    requires Run(w, ls).Some? && f < |ls| && ls[f].Find?
    ensures
      var db := StateAt(w, ls, f).db;
      ResetMatches(db, ls[f].tid, ls[f].userId, ls[f].token) && ls[f].now < db.users[ls[f].userId].reset.value.expiresAt
  {
    hide Run;
    Stepped(w, ls, f);
  }

  lemma SpendingClears(w: Resets, ls: seq<Label>, n: nat, found: Found)
    requires Run(w, ls).Some? && Accepts(w, ls, n, found)
    ensures forall l :: HeldSince(StateAt(w, ls, n + 1).db, l) ==> l.userId != found.userId
    ensures
      var was := StateAt(w, ls, n).db;
      && found.userId in was.users
      && StateAt(w, ls, n + 1).db
         == was.(users := was.users[
              found.userId := was.users[found.userId].(passwordHash := ls[n].hash, reset := None)])
  {
    hide Run, After;
    Stepped(w, ls, n);
    SpendIs(StateAt(w, ls, n).db, found.tid, found.userId, found.token, ls[n].hash);
  }

  lemma AcceptedBefore(w: Resets, ls: seq<Label>, n: nat, found: Found, k: nat, again: Found)
    requires Init(w) && Run(w, ls).Some? && Accepts(w, ls, n, found) && Accepts(w, ls, k, again) && n < k
    ensures again.token != found.token
  {
    hide Run, Step, Init, HeldSince;
    var r := GivenAndKept(w, ls, n, found);
    var q := GivenAndKept(w, ls, k, again);
    if r == q {
      SpendingClears(w, ls, n, found);
    } else if r < q {
      RequestedOnce(w, ls, r, q);
    } else {
      RequestedOnce(w, ls, q, r);
    }
  }

  /**
   * Over every interleaving, a step that changes a password by a reset token follows the request r that gave this user
   * the token and the lookup f by the same request, less than an hour after r; the user has had the token in every
   * state since r, so no newer one replaced it; the step stores its hash, ends the token and changes nothing else; and
   * no other step of the run changes a password by it.
   */
  lemma TokensAreSpentOnce(w: Resets, ls: seq<Label>, n: nat, found: Found) returns (r: nat, f: nat)
    requires Init(w) && Run(w, ls).Some? && Accepts(w, ls, n, found)
    ensures r < f < n && GivenBy(ls[r], found) && FoundBy(ls[f], ls[n].thread, found)
    ensures ls[f].now < ls[r].now + 3600
    ensures forall m :: r < m <= n ==> HeldSince(StateAt(w, ls, m).db, ls[r])
    ensures
      var was := StateAt(w, ls, n).db;
      && found.userId in was.users
      && StateAt(w, ls, n + 1).db
         == was.(users := was.users[
              found.userId := was.users[found.userId].(passwordHash := ls[n].hash, reset := None)])
    ensures forall k: nat, again :: Accepts(w, ls, k, again) && again.token == found.token ==> k == n
  {
    hide Run, Step, Init;
    f := LookupOf(w, ls, n, ls[n].thread);
    FindsInTime(w, ls, f);
    SpendingClears(w, ls, n, found);
    r := GivenAndKept(w, ls, n, found);
    var q := GivenAndKept(w, ls, f, found);
    if r < q {
      RequestedOnce(w, ls, r, q);
    } else if q < r {
      RequestedOnce(w, ls, q, r);
    }
    assert HeldSince(StateAt(w, ls, f).db, ls[r]);
    hide HeldSince;
    forall k: nat, again | Accepts(w, ls, k, again) && again.token == found.token
      ensures k == n
    {
      if k < n {
        AcceptedBefore(w, ls, k, again, n, found);
      } else if n < k {
        AcceptedBefore(w, ls, n, found, k, again);
      }
    }
  }
}

/**
 * Activating an invited contact (ActivateContact of backend/iam/store.go): the lookup of the invite and the transaction
 * that creates the user are separate steps, and the transaction checks nothing the lookup saw. What still keeps two
 * activations of one contact apart is UNIQUE (tenant_id, email) on users together with the reference from contacts.
 */
module Activation {
  import opened Wrappers
  import opened Schema
  import opened StoreOps
  import opened StoreInvariants
  import opened TenantStore
  import opened PeopleFrames

  datatype Lookup = Lookup(tid: Id, contact: Id, email: string, name: string)

  datatype Success = Success(contact: Id, userId: Id)

  datatype Activations = Activations(db: Tables, pending: map<nat, Lookup>, successes: seq<Success>)

  datatype Label =
    | Handle(op: Op)
    | Look(thread: nat, tid: Id, contact: Id, token: Id, now: Time)
    | Commit(thread: nat, userId: Id, hash: string, now: Time)

  predicate OpenInvite(c: Contact, token: Id, now: Time) {
    c.inviteToken == Some(token) && (c.inviteExpiresAt.Some? ==> now < c.inviteExpiresAt.value)
  }

  /** getContactByInviteToken finds the contact: its invite is open and it has no user yet. */
  predicate Invited(db: Tables, tid: Id, contact: Id, token: Id, now: Time) {
    contact in ContactsOf(db, tid) && OpenInvite(db.contacts[contact], token, now) && db.contacts[contact].userId.None?
  }

  function NewUser(l: Lookup, hash: string, now: Time): User {
    User(l.tid, l.email, hash, l.name, "user", now, None)
  }

  function ActivateOp(l: Lookup, userId: Id, hash: string, now: Time): Op {
    Activate(l.tid, l.contact, userId, NewUser(l, hash, now))
  }

  ghost function Step(w: Activations, l: Label): Option<Activations> {
    match l
    case Handle(op) => if op.Activate? || !InContext(w.db, op) then None else Some(w.(db := After(w.db, op)))
    case Look(thread, tid, contact, token, now) =>
      if thread !in w.pending && Invited(w.db, tid, contact, token, now) then
        var c := w.db.contacts[contact];
        Some(w.(pending := w.pending[thread := Lookup(tid, contact, c.email, c.name)]))
      else None
    case Commit(thread, userId, hash, now) =>
      if thread !in w.pending || userId in w.db.users then None
      else
        var l := w.pending[thread];
        var rest := w.(pending := w.pending - {thread});
        match Exec(w.db, ActivateOp(l, userId, hash, now))
        case None => Some(rest)
        case Some(db) => Some(rest.(db := db, successes := w.successes + [Success(l.contact, userId)]))
  }

  ghost function Run(w: Activations, ls: seq<Label>): Option<Activations> {
    if ls == [] then Some(w)
    else
      match Run(w, ls[..|ls| - 1])
      case None => None
      case Some(v) => Step(v, ls[|ls| - 1])
  }

  ghost predicate AllSpare(ls: seq<Label>, contact: Id, tid: Id, email: string) {
    forall i :: 0 <= i < |ls| && ls[i].Handle? ==> Spares(ls[i].op, contact, tid, email)
  }

  // --- Frames ---

  /** Contact and linked user are still there and still match. */
  ghost predicate LinkKept(db: Tables, after: Tables, c: Id) {
    && c in db.contacts && c in after.contacts && SameContact(db.contacts[c], after.contacts[c])
    && (db.contacts[c].userId.Some? ==>
          var u := db.contacts[c].userId.value;
          u in db.users && u in after.users && SameUser(db.users[u], after.users[u]))
  }

  lemma LinkedExists(db: Tables, c: Id)
    requires Sound(db) && c in db.contacts && db.contacts[c].userId.Some?
    ensures db.contacts[c].userId.value in db.users
  {
    assert LinksExist(db.contacts, db.users);
  }

  lemma UserLinkKept(db: Tables, op: Op, c: Id)
    requires Sound(db) && UserOp(op) && !op.Activate? && c in db.contacts
    ensures LinkKept(db, After(db, op), c)
  {
    hide Sound, After;
    UserOpsKeepContacts(db, op);
    if db.contacts[c].userId.Some? {
      LinkedExists(db, c);
      UserKept(db, op, db.contacts[c].userId.value, c);
    }
  }

  lemma ContactLinkKept(db: Tables, op: Op, c: Id)
    requires Sound(db) && ContactOp(op) && c in db.contacts
    requires Spares(op, c, db.contacts[c].tenantId, db.contacts[c].email)
    ensures LinkKept(db, After(db, op), c)
  {
    hide Sound, After;
    ContactKept(db, op, c);
    ContactOpsKeepUsers(db, op);
    if db.contacts[c].userId.Some? {
      LinkedExists(db, c);
    }
  }

  lemma UsersOfOthers(db: Tables, tid: Id, c: Id)
    requires Sound(db) && c in db.contacts && db.contacts[c].tenantId != tid
    ensures LinkKept(db, After(db, DeleteTenant(tid)), c)
  {
    LocalTenantsGo(db, tid);
    assert LinksExist(db.contacts, db.users) && LinksLocal(db.contacts, db.users);
    hide Sound, ExecTenancy, ExecUser, ExecToken, ExecContact, ExecSegment, ExecCampaign, ExecRecipient, DeleteAllOwned;
    hide Detachable;
  }

  lemma SameTablesKept(db: Tables, after: Tables, c: Id)
    requires Sound(db) && c in db.contacts && after.contacts == db.contacts && after.users == db.users
    ensures LinkKept(db, after, c)
  {
    assert LinksExist(db.contacts, db.users);
    hide Sound;
  }

  /** No other operation that spares the contact changes its tenant, email or link, nor removes its user. */
  lemma OthersKeepLink(db: Tables, op: Op, c: Id)
    requires Sound(db) && !op.Activate? && c in db.contacts
    requires Spares(op, c, db.contacts[c].tenantId, db.contacts[c].email)
    ensures LinkKept(db, After(db, op), c)
  {
    hide Sound, After, LinkKept;
    if op.DeleteTenant? {
      UsersOfOthers(db, op.id, c);
    } else if UserOp(op) {
      UserLinkKept(db, op, c);
    } else if ContactOp(op) {
      ContactLinkKept(db, op, c);
    } else {
      if TenancyOp(op) {
        TenancyPeople(db, op);
      } else if TokenOp(op) {
        TokenPeople(db, op);
      } else if SegmentOp(op) {
        SegmentPeople(db, op);
      } else if CampaignOp(op) {
        CampaignPeople(db, op);
      } else {
        RecipientPeople(db, op);
      }
      SameTablesKept(db, After(db, op), c);
    }
  }

  // --- At most once ---

  /**
   * The transaction goes through exactly when no user of the tenant has the email that was looked up. Then it adds a
   * user with that email and name, the new hash, the role "user" and no reset token, links the contact to it if the
   * contact is still there, ends its invite, and changes nothing else.
   */
  lemma CommitsExactly(db: Tables, l: Lookup, userId: Id, hash: string, now: Time)
    requires userId !in db.users
    ensures
      Exec(db, ActivateOp(l, userId, hash, now)).Some? <==>
      !exists u :: u in db.users && db.users[u].tenantId == l.tid && db.users[u].email == l.email
    ensures Exec(db, ActivateOp(l, userId, hash, now)).Some? ==>
      Exec(db, ActivateOp(l, userId, hash, now)).value == Activating(db, l, userId, hash, now)
  {
    CommitIs(db, l, userId, hash, now);
    hide Exec;
  }

  /** The tables with the new user and the contact linked to it. */
  function Activating(db: Tables, l: Lookup, userId: Id, hash: string, now: Time): Tables {
    db.(users := db.users[userId := User(l.tid, l.email, hash, l.name, "user", now, None)],
        contacts :=
          if l.contact in db.contacts && db.contacts[l.contact].tenantId == l.tid then
            db.contacts[l.contact := db.contacts[l.contact].(userId := Some(userId), inviteToken := None)]
          else db.contacts)
  }

  lemma CommitIs(db: Tables, l: Lookup, userId: Id, hash: string, now: Time)
    requires userId !in db.users
    ensures
      Exec(db, ActivateOp(l, userId, hash, now)) ==
      if EmailTaken(db, l.tid, l.email) then None
      else Some(LinkContact(db.(users := db.users[userId := NewUser(l, hash, now)]), l.tid, l.contact, userId))
  {
    hide EmailTaken, LinkContact, ExecTenancy, ExecToken, ExecContact, ExecSegment, ExecCampaign, ExecRecipient;
  }

  /** The contact is linked to this user, which has its tenant and email. */
  ghost predicate LinkedTo(db: Tables, contact: Id, userId: Id) {
    && contact in db.contacts && db.contacts[contact].userId == Some(userId) && userId in db.users
    && db.users[userId].tenantId == db.contacts[contact].tenantId
    && db.users[userId].email == db.contacts[contact].email
  }

  ghost predicate Once(successes: seq<Success>, contact: Id) {
    forall j, k :: 0 <= j < k < |successes| && successes[j].contact == contact ==> successes[k].contact != contact
  }

  ghost predicate ContactInv(w: Activations, contact: Id, tid: Id, email: string) {
    && Sound(w.db)
    && contact in w.db.contacts && w.db.contacts[contact].tenantId == tid && w.db.contacts[contact].email == email
    && (forall th :: th in w.pending && w.pending[th].contact == contact ==>
          w.pending[th].tid == tid && w.pending[th].email == email)
    && (forall k :: 0 <= k < |w.successes| && w.successes[k].contact == contact ==>
          LinkedTo(w.db, contact, w.successes[k].userId))
    && Once(w.successes, contact)
  }

  lemma LinkKeepsLinked(db: Tables, after: Tables, contact: Id, userId: Id)
    requires LinkKept(db, after, contact) && LinkedTo(db, contact, userId)
    ensures LinkedTo(after, contact, userId)
  {
  }

  lemma HandleKeeps(w: Activations, op: Op, contact: Id, tid: Id, email: string)
    requires ContactInv(w, contact, tid, email) && Step(w, Handle(op)).Some? && Spares(op, contact, tid, email)
    ensures ContactInv(Step(w, Handle(op)).value, contact, tid, email)
  {
    hide Sound, After, InContext, LinkedTo, Once;
    SoundKept(w.db, op);
    OthersKeepLink(w.db, op, contact);
    forall k | 0 <= k < |w.successes| && w.successes[k].contact == contact
      ensures LinkedTo(After(w.db, op), contact, w.successes[k].userId)
    {
      LinkKeepsLinked(w.db, After(w.db, op), contact, w.successes[k].userId);
    }
  }

  lemma TakenOnceLinked(db: Tables, contact: Id, userId: Id)
    requires LinkedTo(db, contact, userId)
    ensures EmailTaken(db, db.contacts[contact].tenantId, db.contacts[contact].email)
  {
  }

  lemma CommitKeepsSound(w: Activations, l: Lookup, userId: Id, hash: string, now: Time)
    requires Sound(w.db)
    ensures Sound(After(w.db, ActivateOp(l, userId, hash, now)))
  {
    hide Sound, After;
    SoundKept(w.db, ActivateOp(l, userId, hash, now));
  }

  /** What a commit does to a contact that is not the one being activated. */
  lemma OthersUnlinked(db: Tables, l: Lookup, userId: Id, hash: string, now: Time, contact: Id)
    requires Sound(db) && contact in db.contacts && contact != l.contact && userId !in db.users
    ensures LinkKept(db, LinkContact(db.(users := db.users[userId := NewUser(l, hash, now)]), l.tid, l.contact,
                                     userId), contact)
  {
    hide Sound, NewUser, LinkContact;
    if db.contacts[contact].userId.Some? {
      LinkedExists(db, contact);
    }
    LinksOnlyOne(db.(users := db.users[userId := NewUser(l, hash, now)]), l.tid, l.contact, userId, contact);
  }

  lemma LinksOnlyOne(db: Tables, tid: Id, contact: Id, userId: Id, other: Id)
    requires other in db.contacts && other != contact
    ensures
      var after := LinkContact(db, tid, contact, userId);
      after.users == db.users && other in after.contacts && after.contacts[other] == db.contacts[other]
  {
  }

  lemma CommitOwn(w: Activations, thread: nat, userId: Id, hash: string, now: Time, contact: Id, tid: Id, email: string)
    requires ContactInv(w, contact, tid, email) && Step(w, Commit(thread, userId, hash, now)).Some?
    requires w.pending[thread].contact == contact && Exec(w.db, ActivateOp(w.pending[thread], userId, hash, now)).Some?
    ensures ContactInv(Step(w, Commit(thread, userId, hash, now)).value, contact, tid, email)
  {
    var l := w.pending[thread];
    hide Sound, EmailTaken, LinkedTo;
    CommitKeepsSound(w, l, userId, hash, now);
    CommitIs(w.db, l, userId, hash, now);
    hide Exec, NewUser;
    forall k | 0 <= k < |w.successes|
      ensures w.successes[k].contact != contact
    {
      if w.successes[k].contact == contact {
        TakenOnceLinked(w.db, contact, w.successes[k].userId);
      }
    }
    NowLinked(w.db, l, userId, hash, now);
  }

  lemma CommitOther(w: Activations, thread: nat, userId: Id, hash: string, now: Time, contact: Id, tid: Id,
                    email: string)
    requires ContactInv(w, contact, tid, email) && Step(w, Commit(thread, userId, hash, now)).Some?
    requires w.pending[thread].contact != contact && Exec(w.db, ActivateOp(w.pending[thread], userId, hash, now)).Some?
    ensures ContactInv(Step(w, Commit(thread, userId, hash, now)).value, contact, tid, email)
  {
    var l := w.pending[thread];
    hide Sound, EmailTaken, LinkedTo, Once;
    CommitKeepsSound(w, l, userId, hash, now);
    CommitIs(w.db, l, userId, hash, now);
    hide Exec, NewUser;
    OthersUnlinked(w.db, l, userId, hash, now, contact);
    var db := Exec(w.db, ActivateOp(l, userId, hash, now)).value;
    hide LinkContact;
    forall k | 0 <= k < |w.successes| && w.successes[k].contact == contact
      ensures LinkedTo(db, contact, w.successes[k].userId)
    {
      LinkKeepsLinked(w.db, db, contact, w.successes[k].userId);
    }
    OnceMore(w.successes, Success(l.contact, userId), contact);
  }

  lemma OnceMore(successes: seq<Success>, s: Success, contact: Id)
    requires Once(successes, contact) && s.contact != contact
    ensures Once(successes + [s], contact)
  {
  }

  lemma CommitKeeps(w: Activations, thread: nat, userId: Id, hash: string, now: Time, contact: Id, tid: Id,
                    email: string)
    requires ContactInv(w, contact, tid, email) && Step(w, Commit(thread, userId, hash, now)).Some?
    ensures ContactInv(Step(w, Commit(thread, userId, hash, now)).value, contact, tid, email)
  {
    hide Exec, Sound, LinkedTo, Once;
    if Exec(w.db, ActivateOp(w.pending[thread], userId, hash, now)).Some? {
      hide ContactInv, Step;
      if w.pending[thread].contact == contact {
        CommitOwn(w, thread, userId, hash, now, contact, tid, email);
      } else {
        CommitOther(w, thread, userId, hash, now, contact, tid, email);
      }
    }
  }

  /** A commit links the contact, if it is still there with the email that was looked up, to a user of that email. */
  lemma NowLinked(db: Tables, l: Lookup, userId: Id, hash: string, now: Time)
    requires l.contact in ContactsOf(db, l.tid) && db.contacts[l.contact].email == l.email
    ensures
      var after := LinkContact(db.(users := db.users[userId := NewUser(l, hash, now)]), l.tid, l.contact, userId);
      LinkedTo(after, l.contact, userId) && after.contacts[l.contact].tenantId == l.tid
        && after.contacts[l.contact].email == l.email
  {
  }

  lemma StepKeeps(w: Activations, l: Label, contact: Id, tid: Id, email: string)
    requires ContactInv(w, contact, tid, email) && Step(w, l).Some? && (l.Handle? ==> Spares(l.op, contact, tid, email))
    ensures ContactInv(Step(w, l).value, contact, tid, email)
  {
    hide After, Exec, Sound, InContext;
    match l
    case Handle(op) => {
      hide ContactInv, Step;
      HandleKeeps(w, op, contact, tid, email);
    }
    case Look(thread, t, c, token, now) =>
    case Commit(thread, userId, hash, now) => {
      hide ContactInv, Step;
      CommitKeeps(w, thread, userId, hash, now, contact, tid, email);
    }
  }

  lemma {:induction false} RunKeeps(w: Activations, ls: seq<Label>, contact: Id, tid: Id, email: string)
    requires ContactInv(w, contact, tid, email) && Run(w, ls).Some? && AllSpare(ls, contact, tid, email)
    ensures ContactInv(Run(w, ls).value, contact, tid, email)
  {
    hide ContactInv, Step, Spares;
    if ls != [] {
      var n := |ls| - 1;
      assert AllSpare(ls[..n], contact, tid, email);
      RunKeeps(w, ls[..n], contact, tid, email);
      StepKeeps(Run(w, ls[..n]).value, ls[n], contact, tid, email);
    }
  }

  /**
   * However lookups, transactions and other requests interleave, a contact that nothing deletes or gives another
   * email is activated at most once, and then it is linked to a user of its tenant with its email.
   */
  lemma ActivatedAtMostOnce(w: Activations, ls: seq<Label>, contact: Id)
    requires Sound(w.db) && w.pending == map[] && w.successes == [] && contact in w.db.contacts
    requires Run(w, ls).Some? && AllSpare(ls, contact, w.db.contacts[contact].tenantId, w.db.contacts[contact].email)
    ensures
      var v := Run(w, ls).value;
      && Once(v.successes, contact)
      && forall k :: 0 <= k < |v.successes| && v.successes[k].contact == contact ==>
           LinkedTo(v.db, contact, v.successes[k].userId)
  {
    hide Sound, Step;
    RunKeeps(w, ls, contact, w.db.contacts[contact].tenantId, w.db.contacts[contact].email);
  }

  // --- An edit in between breaks it ---

  function Invitee(email: string): Contact {
    Contact("t", email, "Ann", None, false, "u", Some("i"), None, "form", 0, 0)
  }

  function InviteeOnly(email: string): Tables {
    Tables(map[], map[], map[], map[], map[], map[], map["c" := Invitee(email)], map[], {}, map[], {}, map[])
  }

  /** Two requests look the same invite up, one before and one after the contact's email is edited; both go through. */
  function Race(): seq<Label> {
    [Look(0, "t", "c", "i", 0), Handle(EditContact("t", "c", "", "b@x.org")), Look(1, "t", "c", "i", 0),
     Commit(0, "first", "h", 0), Commit(1, "second", "h", 0)]
  }

  lemma OneMore(w: Activations, v: Activations, ls: seq<Label>, n: nat)
    requires n < |ls| && Run(w, ls[..n]) == Some(v)
    ensures Run(w, ls[..n + 1]) == Step(v, ls[n])
  {
    hide Step;
    assert ls[..n + 1][..n] == ls[..n];
  }

  function Looked(email: string): Lookup {
    Lookup("t", "c", email, "Ann")
  }

  /** The tables after the first of the two transactions. */
  function Linked(): Tables {
    InviteeOnly("b@x.org").(users := map["first" := NewUser(Looked("a@x.org"), "h", 0)],
                            contacts := map["c" := Invitee("b@x.org").(userId := Some("first"), inviteToken := None)])
  }

  lemma LooksUp(w: Activations, thread: nat, email: string)
    requires w.db == InviteeOnly(email) && thread !in w.pending
    ensures Step(w, Look(thread, "t", "c", "i", 0)) == Some(w.(pending := w.pending[thread := Looked(email)]))
  {
    assert "c" in ContactsOf(w.db, "t");
  }

  lemma FirstCommit(w: Activations)
    requires w.db == InviteeOnly("b@x.org") && 0 in w.pending && w.pending[0] == Looked("a@x.org") && w.successes == []
    ensures Step(w, Commit(0, "first", "h", 0)) == Some(Activations(Linked(), w.pending - {0}, [Success("c", "first")]))
  {
    var l, db := Looked("a@x.org"), w.db;
    assert !EmailTaken(db, "t", l.email);
    CommitIs(db, l, "first", "h", 0);
    hide Exec;
    assert "c" in ContactsOf(db, "t");
    assert db.users["first" := NewUser(l, "h", 0)] == Linked().users;
    assert LinkContact(db.(users := Linked().users), "t", "c", "first") == Linked();
    assert w.successes + [Success("c", "first")] == [Success("c", "first")];
  }

  lemma SecondCommit(w: Activations)
    requires w.db == Linked() && 1 in w.pending && w.pending[1] == Looked("b@x.org")
    requires w.successes == [Success("c", "first")]
    ensures Step(w, Commit(1, "second", "h", 0)).Some?
    ensures Step(w, Commit(1, "second", "h", 0)).value.successes == [Success("c", "first"), Success("c", "second")]
  {
    assert !EmailTaken(w.db, "t", "b@x.org");
    CommitIs(w.db, Looked("b@x.org"), "second", "h", 0);
    hide Exec;
  }

  lemma InviteeSound(email: string)
    ensures Sound(InviteeOnly(email))
  {
  }

  lemma Edits(w: Activations)
    requires w.db == InviteeOnly("a@x.org")
    ensures Step(w, Handle(EditContact("t", "c", "", "b@x.org"))) == Some(w.(db := InviteeOnly("b@x.org")))
  {
    EditIs();
    hide After, InviteeOnly;
  }

  /** Five steps in a row, each from where the one before ended. */
  lemma FiveSteps(w: Activations, w1: Activations, w2: Activations, w3: Activations, w4: Activations, ls: seq<Label>)
    requires |ls| == 5
    requires Step(w, ls[0]) == Some(w1) && Step(w1, ls[1]) == Some(w2) && Step(w2, ls[2]) == Some(w3)
    requires Step(w3, ls[3]) == Some(w4)
    ensures Run(w, ls) == Step(w4, ls[4])
  {
    assert ls[..0] == [] && ls[..5] == ls && Run(w, []) == Some(w);
    hide Run, Step;
    OneMore(w, w, ls, 0);
    OneMore(w, w1, ls, 1);
    OneMore(w, w2, ls, 2);
    OneMore(w, w3, ls, 3);
    OneMore(w, w4, ls, 4);
  }

  lemma EditingTheEmailBreaksIt()
    ensures
      var w := Activations(InviteeOnly("a@x.org"), map[], []);
      && Sound(w.db) && Run(w, Race()).Some?
      && Run(w, Race()).value.successes == [Success("c", "first"), Success("c", "second")]
  {
    hide Run, Step, InviteeOnly, Linked, Sound, Looked, Invitee;
    var w := Activations(InviteeOnly("a@x.org"), map[], []);
    var w1 := w.(pending := w.pending[0 := Looked("a@x.org")]);
    var w2 := w1.(db := InviteeOnly("b@x.org"));
    var w3 := w2.(pending := w2.pending[1 := Looked("b@x.org")]);
    var w4 := Activations(Linked(), w3.pending - {0}, [Success("c", "first")]);
    InviteeSound("a@x.org");
    LooksUp(w, 0, "a@x.org");
    Edits(w1);
    LooksUp(w2, 1, "b@x.org");
    FirstCommit(w3);
    SecondCommit(w4);
    FiveSteps(w, w1, w2, w3, w4, Race());
  }

  lemma EditIs()
    ensures After(InviteeOnly("a@x.org"), EditContact("t", "c", "", "b@x.org")) == InviteeOnly("b@x.org")
  {
    var db := InviteeOnly("a@x.org");
    assert "c" in ContactsOf(db, "t");
    assert !ContactClashes(db, Some("c"), Invitee("b@x.org"));
    assert db.contacts["c" := Invitee("b@x.org")] == InviteeOnly("b@x.org").contacts;
  }

  // --- One request by itself ---

  datatype Outcome = InvalidInvite | AlreadyActivated | Refused | Activated(userId: Id)

  /** The contact of this tenant has this invite, which has not expired, and no user yet. */
  predicate HasInvite(db: Tables, tid: Id, contact: Id, token: Id, now: Time) {
    && contact in db.contacts && db.contacts[contact].tenantId == tid && db.contacts[contact].inviteToken == Some(token)
    && (db.contacts[contact].inviteExpiresAt.Some? ==> now < db.contacts[contact].inviteExpiresAt.value)
    && db.contacts[contact].userId == None
  }

  /** ActivateContact with nothing in between. */
  method ActivateContact(db: Database, tid: Id, token: Id, hash: string, userId: Id,
                         now: Time) returns (outcome: Outcome)
    requires Sound(db.tables) && userId !in db.tables.users
    modifies db
    ensures outcome.Activated? ==>
      exists c :: HasInvite(old(db.tables), tid, c, token, now) && outcome.userId == userId
                  && var was := old(db.tables);
                     db.tables == was.(
                       users := was.users[
                         userId := User(tid, was.contacts[c].email, hash, was.contacts[c].name, "user", now, None)],
                       contacts := was.contacts[
                         c := was.contacts[c].(userId := Some(userId), inviteToken := None)])
    ensures !outcome.Activated? ==> db.tables == old(db.tables)
    ensures outcome.Refused? ==>
      exists c :: HasInvite(old(db.tables), tid, c, token, now)
                  && exists u :: u in old(db.tables).users && old(db.tables).users[u].tenantId == tid
                                 && old(db.tables).users[u].email == old(db.tables).contacts[c].email
    ensures outcome.InvalidInvite? || outcome.AlreadyActivated? ==>
      forall c :: !HasInvite(old(db.tables), tid, c, token, now)
    ensures Sound(db.tables)
  {
    hide Sound, EmailTaken, LinkedTo;
    if contact :| contact in ContactsOf(db.tables, tid) && OpenInvite(db.tables.contacts[contact], token, now) {
      var c := db.tables.contacts[contact];
      if c.userId.Some? {
        OneInvite(db.tables, contact);
        return AlreadyActivated;
      }
      var l := Lookup(tid, contact, c.email, c.name);
      CommitsExactly(db.tables, l, userId, hash, now);
      CommitKeepsSound(Activations(db.tables, map[], []), l, userId, hash, now);
      assert HasInvite(db.tables, tid, contact, token, now);
      hide Exec, NewUser, LinkContact, HasInvite;
      var done := Exec(db.tables, ActivateOp(l, userId, hash, now));
      if done.None? {
        return Refused;
      }
      db.tables := done.value;
      return Activated(userId);
    }
    return InvalidInvite;
  }

  /** invite_token is UNIQUE, so an invite belongs to one contact. */
  lemma OneInvite(db: Tables, contact: Id)
    requires Sound(db) && contact in db.contacts && db.contacts[contact].inviteToken.Some?
    ensures forall c :: c in db.contacts && db.contacts[c].inviteToken == db.contacts[contact].inviteToken ==>
      c == contact
  {
    UniqueContactsAt(db.contacts, contact);
  }
}

/**
 * Exactly which operations endanger at-most-once activation: whoever deletes the invited contact, gives it another
 * email or deletes its tenant can be interleaved with two activations of one invite that both go through.
 */
module ActivationThreshold {
  import opened Wrappers
  import opened Schema
  import opened StoreOps
  import opened StoreInvariants
  import opened TenantStore
  import opened PeopleFrames
  import opened Activation

  /** Every request of the run spares the contact or is the one in question. */
  ghost predicate SpareBut(ls: seq<Label>, op: Op, contact: Id, tid: Id, email: string) {
    forall i :: 0 <= i < |ls| && ls[i].Handle? ==> ls[i].op == op || Spares(ls[i].op, contact, tid, email)
  }

  /** No run of activations and sparing requests, with this operation anywhere in it, activates the contact twice. */
  ghost predicate Safe(db: Tables, contact: Id, op: Op)
    requires contact in db.contacts
  {
    forall ls ::
      var w := Activations(db, map[], []);
      Run(w, ls).Some? && SpareBut(ls, op, contact, db.contacts[contact].tenantId, db.contacts[contact].email) ==>
      Once(Run(w, ls).value.successes, contact)
  }

  // --- Ids nothing uses ---

  lemma {:induction false} LongestOf(taken: set<Id>) returns (n: nat)
    ensures forall x :: x in taken ==> |x| <= n
  {
    n := 0;
    if x :| x in taken {
      n := LongestOf(taken - {x});
      if n < |x| {
        n := |x|;
      }
    }
  }

  lemma Unused(taken: set<Id>) returns (id: Id)
    ensures id !in taken
  {
    var n := LongestOf(taken);
    id := seq(n + 1, _ => 'x');
  }

  // --- Runs that leave the contact alone in its tenant ---

  /** A run from the given tables of which every request spares the contact or is the operation. */
  ghost predicate Reaches(db: Tables, op: Op, contact: Id, tid: Id, email: string, ls: seq<Label>, w: Activations) {
    Run(Activations(db, map[], []), ls) == Some(w) && SpareBut(ls, op, contact, tid, email)
  }

  lemma Further(db: Tables, op: Op, contact: Id, tid: Id, email: string, ls: seq<Label>, w: Activations, l: Label)
    returns (more: seq<Label>, v: Activations)
    requires Reaches(db, op, contact, tid, email, ls, w) && Step(w, l).Some?
    requires l.Handle? ==> l.op == op || Spares(l.op, contact, tid, email)
    ensures Reaches(db, op, contact, tid, email, more, v) && Step(w, l) == Some(v)
  {
    hide Step, Spares;
    more, v := ls + [l], Step(w, l).value;
    assert more[..|more| - 1] == ls;
  }

  /** The contact with its open invite is still there. */
  ghost predicate Waiting(db: Tables, contact: Id, row: Contact) {
    && Sound(db) && contact in db.contacts && db.contacts[contact] == row
    && row.userId.None? && row.inviteToken.Some?
  }

  /** Nobody else is left in the tenant. */
  ghost predicate Alone(db: Tables, contact: Id, row: Contact) {
    && Waiting(db, contact, row) && CampaignsOf(db, row.tenantId) == {} && ContactsOf(db, row.tenantId) == {contact}
    && Scoped(db.users, row.tenantId) == {}
  }

  function Others(db: Tables, tid: Id): nat {
    |CampaignsOf(db, tid)| + |ContactsOf(db, tid)| + |Scoped(db.users, tid)|
  }

  lemma CampaignGoes(db: Tables, contact: Id, row: Contact, d: Id)
    requires Waiting(db, contact, row) && d in CampaignsOf(db, row.tenantId)
    ensures
      var after := After(db, DeleteCampaign(row.tenantId, d));
      Waiting(after, contact, row) && Others(after, row.tenantId) < Others(db, row.tenantId)
  {
    var tid, op := row.tenantId, DeleteCampaign(row.tenantId, d);
    hide Sound;
    SoundKept(db, op);
    hide ExecTenancy, ExecUser, ExecToken, ExecContact, ExecSegment, ExecRecipient;
    var after := After(db, op);
    assert {d} * CampaignsOf(db, tid) == {d};
    assert after == DeleteCampaigns(db, {d});
    assert CampaignsOf(after, tid) == CampaignsOf(db, tid) - {d};
    assert ContactsOf(after, tid) == ContactsOf(db, tid) && Scoped(after.users, tid) == Scoped(db.users, tid);
  }

  /** Without campaigns of the tenant no recipient row holds its contacts. */
  lemma NobodyHeld(db: Tables, tid: Id, gone: set<Id>)
    requires Sound(db) && CampaignsOf(db, tid) == {} && gone <= ContactsOf(db, tid)
    ensures DeleteContacts(db, gone).Some?
  {
    forall r | r in db.recipients && db.recipients[r].contactId in gone * db.contacts.Keys
      ensures db.recipients[r].campaignId in CampaignsOf(db, tid)
    {
      assert RecipientsExist(db.recipients, db.campaigns, db.contacts);
      assert RecipientsLocal(db.recipients, db.campaigns, db.contacts);
    }
  }

  lemma ContactGoes(db: Tables, contact: Id, row: Contact, d: Id)
    requires Waiting(db, contact, row) && CampaignsOf(db, row.tenantId) == {}
    requires d in ContactsOf(db, row.tenantId) && d != contact
    ensures
      var after := After(db, DeleteContact(row.tenantId, d));
      && Waiting(after, contact, row) && Others(after, row.tenantId) < Others(db, row.tenantId)
  {
    var tid, op := row.tenantId, DeleteContact(row.tenantId, d);
    NobodyHeld(db, tid, {d});
    hide Sound;
    SoundKept(db, op);
    hide ExecTenancy, ExecUser, ExecToken, ExecCampaign, ExecSegment, ExecRecipient;
    var after := After(db, op);
    assert {d} * ContactsOf(db, tid) == {d};
    assert Some(after) == DeleteContacts(db, {d});
    WithoutContact(db, after, tid, d);
    hide DeleteContacts, ContactsOf, CampaignsOf, Scoped;
  }

  lemma WithoutContact(db: Tables, after: Tables, tid: Id, d: Id)
    requires DeleteContacts(db, {d}) == Some(after)
    ensures after.contacts == db.contacts - {d} && ContactsOf(after, tid) == ContactsOf(db, tid) - {d}
    ensures CampaignsOf(after, tid) == CampaignsOf(db, tid) && Scoped(after.users, tid) == Scoped(db.users, tid)
  {
  }

  /** A user none of whose tenant's contacts is linked is linked to nobody. */
  lemma NobodyLinked(db: Tables, tid: Id, d: Id)
    requires Sound(db) && d in Scoped(db.users, tid)
    requires forall c :: c in ContactsOf(db, tid) ==> db.contacts[c].userId != Some(d)
    ensures DeleteUsers(db, {d}).Some?
  {
    assert LinksLocal(db.contacts, db.users);
    forall c | c in db.contacts && db.contacts[c].userId == Some(d)
      ensures c in ContactsOf(db, tid)
    {
    }
  }

  lemma UserGoes(db: Tables, contact: Id, row: Contact, d: Id)
    requires Waiting(db, contact, row) && ContactsOf(db, row.tenantId) == {contact}
    requires d in Scoped(db.users, row.tenantId)
    ensures
      var after := After(db, DeleteUser(row.tenantId, d));
      && Waiting(after, contact, row) && Others(after, row.tenantId) < Others(db, row.tenantId)
  {
    var tid, op := row.tenantId, DeleteUser(row.tenantId, d);
    NobodyLinked(db, tid, d);
    hide Sound;
    SoundKept(db, op);
    hide ExecTenancy, ExecContact, ExecToken, ExecCampaign, ExecSegment, ExecRecipient;
    var after := After(db, op);
    assert {d} * Scoped(db.users, tid) == {d};
    assert Some(after) == DeleteUsers(db, {d});
    assert Scoped(after.users, tid) == Scoped(db.users, tid) - {d};
    assert CampaignsOf(after, tid) == CampaignsOf(db, tid) && ContactsOf(after, tid) == ContactsOf(db, tid);
  }

  /** What to delete next, if the contact is not alone yet. */
  lemma NextToGo(db: Tables, contact: Id, row: Contact) returns (next: Option<Op>)
    requires Waiting(db, contact, row)
    ensures next.None? ==> Alone(db, contact, row)
    ensures next.Some? ==>
      && (next.value.DeleteCampaign? || (next.value.DeleteContact? && next.value.id != contact)
          || next.value.DeleteUser?)
      && Waiting(After(db, next.value), contact, row)
      && Others(After(db, next.value), row.tenantId) < Others(db, row.tenantId)
  {
    hide After, Waiting, Others;
    var tid := row.tenantId;
    if d :| d in CampaignsOf(db, tid) {
      CampaignGoes(db, contact, row, d);
      return Some(DeleteCampaign(tid, d));
    }
    if d :| d in ContactsOf(db, tid) && d != contact {
      ContactGoes(db, contact, row, d);
      return Some(DeleteContact(tid, d));
    }
    assert ContactsOf(db, tid) == {contact} by {
      Present(db, contact, row);
    }
    if d :| d in Scoped(db.users, tid) {
      UserGoes(db, contact, row, d);
      return Some(DeleteUser(tid, d));
    }
    return None;
  }

  lemma Present(db: Tables, contact: Id, row: Contact)
    requires Waiting(db, contact, row)
    ensures contact in ContactsOf(db, row.tenantId)
  {
    hide Sound;
  }

  /** Sparing requests can empty the tenant around the contact. */
  lemma {:induction false} Emptied(start: Tables, op: Op, contact: Id, row: Contact, ls: seq<Label>, db: Tables)
    returns (more: seq<Label>, rest: Tables)
    requires Waiting(db, contact, row)
    requires Reaches(start, op, contact, row.tenantId, row.email, ls, Activations(db, map[], []))
    ensures Alone(rest, contact, row)
    ensures Reaches(start, op, contact, row.tenantId, row.email, more, Activations(rest, map[], []))
    decreases Others(db, row.tenantId)
  {
    hide After, Waiting, Others, Alone;
    var next := NextToGo(db, contact, row);
    if next.None? {
      return ls, db;
    }
    hide Reaches, Run;
    var w := Activations(db, map[], []);
    assert Step(w, Handle(next.value)) == Some(w.(db := After(db, next.value)));
    var one, v := Further(start, op, contact, row.tenantId, row.email, ls, w, Handle(next.value));
    more, rest := Emptied(start, op, contact, row, one, After(db, next.value));
  }

  // --- Two activations ---

  function Found(contact: Id, row: Contact): Lookup {
    Lookup(row.tenantId, contact, row.email, row.name)
  }

  /** A lookup of the open invite by a new request. */
  lemma LookStep(w: Activations, thread: nat, contact: Id, row: Contact) returns (l: Label)
    requires Waiting(w.db, contact, row) && thread !in w.pending
    ensures !l.Handle? && Step(w, l) == Some(w.(pending := w.pending[thread := Found(contact, row)]))
  {
    hide Sound;
    var now := if row.inviteExpiresAt.Some? then row.inviteExpiresAt.value - 1 else 0;
    l := Look(thread, row.tenantId, contact, row.inviteToken.value, now);
    assert contact in ContactsOf(w.db, row.tenantId);
  }

  function Committed(db: Tables, l: Lookup, userId: Id): Tables {
    LinkContact(db.(users := db.users[userId := NewUser(l, "", 0)]), l.tid, l.contact, userId)
  }

  /** The transaction of a request whose email is free. */
  lemma CommitStep(w: Activations, thread: nat) returns (l: Label, userId: Id)
    requires thread in w.pending && !EmailTaken(w.db, w.pending[thread].tid, w.pending[thread].email)
    ensures !l.Handle? && userId !in w.db.users
    ensures Step(w, l) == Some(Activations(Committed(w.db, w.pending[thread], userId), w.pending - {thread},
                                           w.successes + [Success(w.pending[thread].contact, userId)]))
  {
    userId := Unused(w.db.users.Keys);
    l := Commit(thread, userId, "", 0);
    hide EmailTaken, LinkContact, NewUser;
    CommitIs(w.db, w.pending[thread], userId, "", 0);
    hide Exec;
  }

  lemma NoUserNoEmail(db: Tables, tid: Id, email: string)
    requires Scoped(db.users, tid) == {}
    ensures !EmailTaken(db, tid, email)
  {
    assert forall u :: u in db.users && db.users[u].tenantId == tid ==> u in Scoped(db.users, tid);
  }

  /** After the first activation its user is the only one of the tenant. */
  lemma CommittedIs(db: Tables, contact: Id, row: Contact, l: Lookup, userId: Id)
    requires Alone(db, contact, row) && userId !in db.users && l.tid == row.tenantId && l.contact == contact
    ensures
      var after := Committed(db, l, userId);
      && Sound(after) && CampaignsOf(after, row.tenantId) == {} && ContactsOf(after, row.tenantId) == {contact}
      && Scoped(after.users, row.tenantId) == {userId} && after.users[userId].email == l.email
      && after.tenants == db.tenants
  {
    var after := Committed(db, l, userId);
    NoUserNoEmail(db, l.tid, l.email);
    CommitsSoundly(db, l, userId);
    hide Sound, EmailTaken;
    assert forall u :: u in after.users ==> u == userId || (u in db.users && after.users[u] == db.users[u]);
    assert forall u :: u in Scoped(after.users, row.tenantId) ==> u == userId || u in Scoped(db.users, row.tenantId);
    assert CampaignsOf(after, row.tenantId) == CampaignsOf(db, row.tenantId);
    assert forall c :: c in after.contacts <==> c in db.contacts;
    assert ContactsOf(after, row.tenantId) == ContactsOf(db, row.tenantId);
  }

  lemma CommitsSoundly(db: Tables, l: Lookup, userId: Id)
    requires Sound(db) && userId !in db.users && !EmailTaken(db, l.tid, l.email)
    ensures Sound(Committed(db, l, userId))
  {
    hide Sound, EmailTaken, LinkContact, NewUser;
    CommitKeepsSound(Activations(db, map[], []), l, userId, "", 0);
    CommitIs(db, l, userId, "", 0);
    hide Exec;
  }

  /** The run activated the contact twice. */
  ghost predicate Twice(start: Tables, op: Op, contact: Id, row: Contact, ls: seq<Label>) {
    && Run(Activations(start, map[], []), ls).Some?
    && SpareBut(ls, op, contact, row.tenantId, row.email)
    && !Once(Run(Activations(start, map[], []), ls).value.successes, contact)
  }

  /** One activation went through and another request is about to commit with an email that is free. */
  lemma SecondGoes(start: Tables, op: Op, contact: Id, row: Contact, ls: seq<Label>, w: Activations)
    returns (more: seq<Label>)
    requires Reaches(start, op, contact, row.tenantId, row.email, ls, w)
    requires |w.successes| == 1 && w.successes[0].contact == contact && 1 in w.pending
    requires w.pending[1].contact == contact
    requires !EmailTaken(w.db, w.pending[1].tid, w.pending[1].email)
    ensures Twice(start, op, contact, row, more)
  {
    hide Run, Step, SpareBut, EmailTaken;
    var l, userId := CommitStep(w, 1);
    var v;
    more, v := Further(start, op, contact, row.tenantId, row.email, ls, w, l);
    assert v.successes[0].contact == contact && v.successes[1].contact == contact;
  }

  /** Two lookups of the invite and the first transaction. */
  lemma FirstGoes(start: Tables, op: Op, contact: Id, row: Contact, ls: seq<Label>, db: Tables)
    returns (more: seq<Label>, w: Activations)
    requires Alone(db, contact, row)
    requires Reaches(start, op, contact, row.tenantId, row.email, ls, Activations(db, map[], []))
    ensures Reaches(start, op, contact, row.tenantId, row.email, more, w)
    ensures |w.successes| == 1 && w.successes[0].contact == contact && w.pending == map[1 := Found(contact, row)]
    ensures w.db.tenants == db.tenants && Sound(w.db) && CampaignsOf(w.db, row.tenantId) == {}
    ensures ContactsOf(w.db, row.tenantId) == {contact} && Scoped(w.db.users, row.tenantId) == {w.successes[0].userId}
  {
    hide Reaches, Step, EmailTaken, Waiting, Committed, Sound;
    var w0 := Activations(db, map[], []);
    var l1 := LookStep(w0, 0, contact, row);
    var m1, w1 := Further(start, op, contact, row.tenantId, row.email, ls, w0, l1);
    var l2 := LookStep(w1, 1, contact, row);
    var m2, w2 := Further(start, op, contact, row.tenantId, row.email, m1, w1, l2);
    NoUserNoEmail(db, row.tenantId, row.email);
    var l3, userId := CommitStep(w2, 0);
    more, w := Further(start, op, contact, row.tenantId, row.email, m2, w2, l3);
    CommittedIs(db, contact, row, Found(contact, row), userId);
    assert w.pending == map[1 := Found(contact, row)];
  }

  // --- The operations that endanger it ---

  lemma EditAlone(db: Tables, contact: Id, row: Contact, name: string, email: string) returns (edited: Contact)
    requires Alone(db, contact, row) && email != ""
    ensures Alone(After(db, EditContact(row.tenantId, contact, name, email)), contact, edited)
    ensures edited.tenantId == row.tenantId && edited.email == email
  {
    edited := row.(name := if name != "" then name else row.name, email := email);
    var op := EditContact(row.tenantId, contact, name, email);
    assert !ContactClashes(db, Some(contact), edited) by {
      UniqueContactsAt(db.contacts, contact);
      hide Sound, UniqueContacts;
      forall c | c in db.contacts && c != contact
        ensures !Clash(edited, db.contacts[c])
      {
        assert c !in ContactsOf(db, row.tenantId);
      }
    }
    hide Sound, ContactClashes;
    SoundKept(db, op);
    hide ExecTenancy, ExecUser, ExecToken, ExecCampaign, ExecSegment, ExecRecipient;
    var after := After(db, op);
    assert contact in ContactsOf(db, row.tenantId);
    assert after == db.(contacts := db.contacts[contact := edited]);
    assert ContactsOf(after, row.tenantId) == ContactsOf(db, row.tenantId);
    assert CampaignsOf(after, row.tenantId) == CampaignsOf(db, row.tenantId);
  }

  lemma EditEndangers(start: Tables, op: Op, contact: Id, row: Contact, ls: seq<Label>, db: Tables)
    returns (more: seq<Label>)
    requires Alone(db, contact, row)
    requires Reaches(start, op, contact, row.tenantId, row.email, ls, Activations(db, map[], []))
    requires op.EditContact? && op.id == contact && op.tid == row.tenantId && op.email != "" && op.email != row.email
    ensures Twice(start, op, contact, row, more)
  {
    hide Reaches, Step, EmailTaken, Waiting, Committed, After, Spares, Twice;
    var tid, e := row.tenantId, row.email;
    var w0 := Activations(db, map[], []);
    var l1 := LookStep(w0, 0, contact, row);
    var m1, w1 := Further(start, op, contact, tid, e, ls, w0, l1);
    var edited := EditAlone(db, contact, row, op.name, op.email);
    HandleStep(w1, op);
    var m2, w2 := Further(start, op, contact, tid, e, m1, w1, Handle(op));
    var l3 := LookStep(w2, 1, contact, edited);
    var m3, w3 := Further(start, op, contact, tid, e, m2, w2, l3);
    NoUserNoEmail(w3.db, tid, e);
    var l4, userId := CommitStep(w3, 0);
    var m4, w4 := Further(start, op, contact, tid, e, m3, w3, l4);
    CommittedIs(w3.db, contact, edited, Found(contact, row), userId);
    OnlyUser(w4.db, tid, userId, op.email);
    more := SecondGoes(start, op, contact, row, m4, w4);
  }

  lemma HandleStep(w: Activations, op: Op)
    requires op.EditContact? || op.DeleteContact? || op.DeleteTenant? || op.DeleteUser? || op.CreateTenant?
    ensures Step(w, Handle(op)) == Some(w.(db := After(w.db, op)))
  {
    hide After;
  }

  lemma OnlyUser(db: Tables, tid: Id, userId: Id, email: string)
    requires Scoped(db.users, tid) == {userId} && db.users[userId].email != email
    ensures !EmailTaken(db, tid, email)
  {
    assert forall u :: u in db.users && db.users[u].tenantId == tid ==> u in Scoped(db.users, tid);
  }

  /** The contact and then its user can be deleted. */
  lemma BothGo(db: Tables, tid: Id, contact: Id, userId: Id)
    requires Sound(db) && CampaignsOf(db, tid) == {} && ContactsOf(db, tid) == {contact}
    requires Scoped(db.users, tid) == {userId}
    ensures Scoped(After(After(db, DeleteContact(tid, contact)), DeleteUser(tid, userId)).users, tid) == {}
  {
    ContactLeaves(db, tid, contact);
    hide After, Sound;
    SoundKept(db, DeleteContact(tid, contact));
    UserLeaves(After(db, DeleteContact(tid, contact)), tid, userId);
  }

  lemma ContactLeaves(db: Tables, tid: Id, contact: Id)
    requires Sound(db) && CampaignsOf(db, tid) == {} && ContactsOf(db, tid) == {contact}
    ensures
      var after := After(db, DeleteContact(tid, contact));
      ContactsOf(after, tid) == {} && after.users == db.users
  {
    NobodyHeld(db, tid, {contact});
    hide Sound, ExecTenancy, ExecUser, ExecToken, ExecCampaign, ExecSegment, ExecRecipient;
    assert {contact} * ContactsOf(db, tid) == {contact};
    assert Some(After(db, DeleteContact(tid, contact))) == DeleteContacts(db, {contact});
  }

  lemma UserLeaves(db: Tables, tid: Id, userId: Id)
    requires Sound(db) && ContactsOf(db, tid) == {} && Scoped(db.users, tid) == {userId}
    ensures Scoped(After(db, DeleteUser(tid, userId)).users, tid) == {}
  {
    NobodyLinked(db, tid, userId);
    hide Sound, ExecTenancy, ExecContact, ExecToken, ExecCampaign, ExecSegment, ExecRecipient;
    assert {userId} * Scoped(db.users, tid) == {userId};
    assert Some(After(db, DeleteUser(tid, userId))) == DeleteUsers(db, {userId});
  }

  lemma ContactDeletionEndangers(start: Tables, op: Op, contact: Id, row: Contact, ls: seq<Label>, db: Tables)
    returns (more: seq<Label>)
    requires Alone(db, contact, row)
    requires Reaches(start, op, contact, row.tenantId, row.email, ls, Activations(db, map[], []))
    requires op == DeleteContact(row.tenantId, contact)
    ensures Twice(start, op, contact, row, more)
  {
    hide Alone, Reaches, Step, EmailTaken, After, Twice;
    var tid, e := row.tenantId, row.email;
    var m1, w1 := FirstGoes(start, op, contact, row, ls, db);
    var userId := w1.successes[0].userId;
    HandleStep(w1, op);
    var m2, w2 := Further(start, op, contact, tid, e, m1, w1, Handle(op));
    HandleStep(w2, DeleteUser(tid, userId));
    var m3, w3 := Further(start, op, contact, tid, e, m2, w2, Handle(DeleteUser(tid, userId)));
    BothGo(w1.db, tid, contact, userId);
    NoUserNoEmail(w3.db, tid, e);
    more := SecondGoes(start, op, contact, row, m3, w3);
  }

  lemma TenantLeaves(db: Tables, tid: Id)
    requires Sound(db) && tid in db.tenants
    ensures Scoped(After(db, DeleteTenant(tid)).users, tid) == {}
  {
    LocalTenantsGo(db, tid);
    LeavesNothing(db, tid);
    hide Sound, Detachable, DeleteAllOwned, WithoutTenant, Exec;
  }

  lemma TenantDeletionEndangers(start: Tables, op: Op, contact: Id, row: Contact, ls: seq<Label>, db: Tables)
    returns (more: seq<Label>)
    requires Alone(db, contact, row) && row.tenantId in db.tenants
    requires Reaches(start, op, contact, row.tenantId, row.email, ls, Activations(db, map[], []))
    requires op == DeleteTenant(row.tenantId)
    ensures Twice(start, op, contact, row, more)
  {
    hide Alone, Reaches, Step, EmailTaken, After, Twice;
    var tid, e := row.tenantId, row.email;
    var m1, w1 := FirstGoes(start, op, contact, row, ls, db);
    HandleStep(w1, op);
    var m2, w2 := Further(start, op, contact, tid, e, m1, w1, Handle(op));
    TenantLeaves(w1.db, tid);
    NoUserNoEmail(w2.db, tid, e);
    more := SecondGoes(start, op, contact, row, m2, w2);
  }

  /** A missing tenant can be created. */
  lemma TenantMade(start: Tables, op: Op, contact: Id, row: Contact, ls: seq<Label>, db: Tables)
    returns (more: seq<Label>, rest: Tables)
    requires Alone(db, contact, row) && row.tenantId !in db.tenants
    requires Reaches(start, op, contact, row.tenantId, row.email, ls, Activations(db, map[], []))
    ensures Alone(rest, contact, row) && row.tenantId in rest.tenants
    ensures Reaches(start, op, contact, row.tenantId, row.email, more, Activations(rest, map[], []))
  {
    var tid := row.tenantId;
    var slug := Unused(set t | t in db.tenants :: db.tenants[t].slug);
    var make := CreateTenant(tid, Tenant(slug, "", false, Smtp("", "", "", "", "", "", 0), 0));
    AloneWith(db, contact, row, make);
    hide Reaches, Alone, After;
    HandleStep(Activations(db, map[], []), make);
    hide Step;
    var v;
    more, v := Further(start, op, contact, tid, row.email, ls, Activations(db, map[], []), Handle(make));
    rest := v.db;
  }

  lemma AloneWith(db: Tables, contact: Id, row: Contact, make: Op)
    requires Alone(db, contact, row) && make.CreateTenant? && make.id == row.tenantId && make.id !in db.tenants
    requires forall t :: t in db.tenants ==> db.tenants[t].slug != make.tenant.slug
    ensures Alone(After(db, make), contact, row) && row.tenantId in After(db, make).tenants
  {
    hide Sound;
    SoundKept(db, make);
    hide ExecUser, ExecContact, ExecToken, ExecCampaign, ExecSegment, ExecRecipient;
    var after := After(db, make);
    assert after == db.(tenants := db.tenants[make.id := make.tenant]);
    assert ContactsOf(after, row.tenantId) == ContactsOf(db, row.tenantId);
    assert CampaignsOf(after, row.tenantId) == CampaignsOf(db, row.tenantId);
  }

  lemma OthersEndanger(db: Tables, contact: Id, op: Op) returns (ls: seq<Label>)
    requires contact in db.contacts && Waiting(db, contact, db.contacts[contact])
    requires !Spares(op, contact, db.contacts[contact].tenantId, db.contacts[contact].email)
    ensures Twice(db, op, contact, db.contacts[contact], ls)
  {
    var row := db.contacts[contact];
    assert Reaches(db, op, contact, row.tenantId, row.email, [], Activations(db, map[], []));
    hide Reaches, Twice, Waiting, Alone;
    var rest: Tables;
    ls, rest := Emptied(db, op, contact, row, [], db);
    if op.EditContact? {
      ls := EditEndangers(db, op, contact, row, ls, rest);
    } else if op.DeleteContact? {
      ls := ContactDeletionEndangers(db, op, contact, row, ls, rest);
    } else {
      if row.tenantId !in rest.tenants {
        ls, rest := TenantMade(db, op, contact, row, ls, rest);
      }
      ls := TenantDeletionEndangers(db, op, contact, row, ls, rest);
    }
  }

  /**
   * For any sound tables and any contact with an open invite, an operation leaves activation at most once in every
   * interleaving if and only if it spares the contact: it does not delete the contact or its tenant and leaves it its
   * email.
   */
  lemma SparingIsExact(db: Tables, contact: Id, op: Op)
    requires Sound(db) && contact in db.contacts
    requires db.contacts[contact].inviteToken.Some? && db.contacts[contact].userId.None?
    ensures Safe(db, contact, op) <==> Spares(op, contact, db.contacts[contact].tenantId, db.contacts[contact].email)
  {
    hide Sound, Run, Once;
    var row := db.contacts[contact];
    if Spares(op, contact, row.tenantId, row.email) {
      forall ls | Run(Activations(db, map[], []), ls).Some? && SpareBut(ls, op, contact, row.tenantId, row.email)
        ensures Once(Run(Activations(db, map[], []), ls).value.successes, contact)
      {
        hide Spares;
        ActivatedAtMostOnce(Activations(db, map[], []), ls, contact);
      }
    } else {
      hide Spares;
      var ls := OthersEndanger(db, contact, op);
    }
  }
}

/** What the operations of the stores leave alone in contacts and users, as far as activation is concerned. */
module PeopleFrames {
  import opened Wrappers
  import opened Schema
  import opened StoreOps

  /** The operation leaves this contact's row and email alone: it neither deletes it nor gives it another email. */
  predicate Spares(op: Op, contact: Id, tid: Id, email: string) {
    && !(op.EditContact? && op.id == contact && op.tid == tid && op.email != "" && op.email != email)
    && !(op.DeleteContact? && op.id == contact && op.tid == tid)
    && !(op.DeleteTenant? && op.id == tid)
  }

  /** The contact as far as activation is concerned. */
  predicate SameContact(c: Contact, d: Contact) {
    c.tenantId == d.tenantId && c.email == d.email && c.userId == d.userId
  }

  predicate SameUser(u: User, v: User) {
    u.tenantId == v.tenantId && u.email == v.email
  }

  lemma EditKeepsUser(db: Tables, tid: Id, id: Id, name: string, role: string, u: Id)
    requires u in db.users
    ensures
      var after := After(db, EditUser(tid, id, name, role));
      u in after.users && SameUser(db.users[u], after.users[u])
  {
    hide ExecTenancy, ExecToken, ExecContact, ExecSegment, ExecCampaign, ExecRecipient, SameUser;
    SameAsItself(db.users[u]);
    if id in Scoped(db.users, tid) {
      var was := db.users[id];
      var row := was.(name := if name != "" then name else was.name, role := if role != "" then role else was.role);
      assert ExecUser(db, EditUser(tid, id, name, role)).value.users == db.users[id := row];
      SameFields(was, row);
    } else {
      assert ExecUser(db, EditUser(tid, id, name, role)) == Some(db);
    }
  }

  lemma PasswordKeepsUser(db: Tables, tid: Id, id: Id, hash: string, u: Id)
    requires u in db.users
    ensures
      var after := After(db, SetPassword(tid, id, hash));
      u in after.users && SameUser(db.users[u], after.users[u])
  {
    hide ExecTenancy, ExecToken, ExecContact, ExecSegment, ExecCampaign, ExecRecipient, SameUser;
    SameAsItself(db.users[u]);
    if id in Scoped(db.users, tid) {
      var was := db.users[id];
      var row := was.(passwordHash := hash);
      assert ExecUser(db, SetPassword(tid, id, hash)).value.users == db.users[id := row];
      SameFields(was, row);
    } else {
      assert ExecUser(db, SetPassword(tid, id, hash)) == Some(db);
    }
  }

  lemma ResetKeepsUser(db: Tables, tid: Id, id: Id, reset: ResetToken, u: Id)
    requires u in db.users
    ensures
      var after := After(db, SetResetToken(tid, id, reset));
      u in after.users && SameUser(db.users[u], after.users[u])
  {
    hide ExecTenancy, ExecToken, ExecContact, ExecSegment, ExecCampaign, ExecRecipient, SameUser;
    SameAsItself(db.users[u]);
    if id in Scoped(db.users, tid) {
      var was := db.users[id];
      var row := was.(reset := Some(reset));
      assert ExecUser(db, SetResetToken(tid, id, reset)).value.users == db.users[id := row];
      SameFields(was, row);
    } else {
      assert ExecUser(db, SetResetToken(tid, id, reset)) == Some(db);
    }
  }

  lemma SpendKeepsUser(db: Tables, tid: Id, id: Id, token: Id, hash: string, u: Id)
    requires u in db.users
    ensures
      var after := After(db, SpendResetToken(tid, id, token, hash));
      u in after.users && SameUser(db.users[u], after.users[u])
  {
    hide ExecTenancy, ExecToken, ExecContact, ExecSegment, ExecCampaign, ExecRecipient, SameUser;
    SameAsItself(db.users[u]);
    if ResetMatches(db, tid, id, token) {
      var was := db.users[id];
      var row := was.(passwordHash := hash, reset := None);
      assert ExecUser(db, SpendResetToken(tid, id, token, hash)).value.users == db.users[id := row];
      SameFields(was, row);
    } else {
      assert ExecUser(db, SpendResetToken(tid, id, token, hash)) == Some(db);
    }
  }

  lemma CreatingKeepsUser(db: Tables, op: Op, u: Id)
    requires op.CreateUser? && u in db.users
    ensures u in After(db, op).users && SameUser(db.users[u], After(db, op).users[u])
  {
    hide EmailTaken;
  }

  lemma DeletingKeepsUser(db: Tables, op: Op, u: Id, c: Id)
    requires op.DeleteUser? && u in db.users && c in db.contacts && db.contacts[c].userId == Some(u)
    ensures u in After(db, op).users && SameUser(db.users[u], After(db, op).users[u])
  {
    hide ExecTenancy, ExecToken, ExecContact, ExecSegment, ExecCampaign, ExecRecipient, SameUser;
    var gone := {op.id} * Scoped(db.users, op.tid);
    assert ExecUser(db, op) == DeleteUsers(db, gone);
    if u in gone {
      assert DeleteUsers(db, gone).None?;
    }
    assert After(db, op).users[u] == db.users[u];
    SameAsItself(db.users[u]);
  }

  lemma SameFields(u: User, v: User)
    requires u.tenantId == v.tenantId && u.email == v.email
    ensures SameUser(u, v)
  {
  }

  lemma SameAsItself(u: User)
    ensures SameUser(u, u)
  {
  }

  /** A user that a contact refers to cannot be deleted, and no operation changes its email. */
  lemma UserKept(db: Tables, op: Op, u: Id, c: Id)
    requires UserOp(op) && !op.Activate? && u in db.users && c in db.contacts && db.contacts[c].userId == Some(u)
    ensures u in After(db, op).users && SameUser(db.users[u], After(db, op).users[u])
  {
    hide After, SameUser;
    if op.DeleteUser? {
      DeletingKeepsUser(db, op, u, c);
    } else if op.CreateUser? {
      CreatingKeepsUser(db, op, u);
    } else if op.EditUser? {
      EditKeepsUser(db, op.tid, op.id, op.name, op.role, u);
    } else if op.SetPassword? {
      PasswordKeepsUser(db, op.tid, op.id, op.hash, u);
    } else if op.SetResetToken? {
      ResetKeepsUser(db, op.tid, op.id, op.reset, u);
    } else {
      SpendKeepsUser(db, op.tid, op.id, op.token, op.hash, u);
    }
  }

  lemma UserOpsKeepContacts(db: Tables, op: Op)
    requires UserOp(op) && !op.Activate?
    ensures After(db, op).contacts == db.contacts
  {
    hide ExecTenancy, ExecToken, ExecContact, ExecSegment, ExecCampaign, ExecRecipient, EmailTaken, ResetMatches;
    hide LinkContact, Scoped;
  }

  lemma ContactOpsKeepUsers(db: Tables, op: Op)
    requires ContactOp(op)
    ensures After(db, op).users == db.users
  {
    hide ExecTenancy, ExecUser, ExecToken, ExecSegment, ExecCampaign, ExecRecipient, ContactClashes, ContactsOf;
  }

  lemma ContactCreateKept(db: Tables, op: Op, c: Id)
    requires op.CreateContact? && c in db.contacts
    ensures c in After(db, op).contacts && After(db, op).contacts[c] == db.contacts[c]
  {
    hide ExecTenancy, ExecUser, ExecToken, ExecSegment, ExecCampaign, ExecRecipient, ContactClashes, ContactsOf;
  }

  lemma ContactEditKept(db: Tables, op: Op, c: Id)
    requires op.EditContact? && c in db.contacts && Spares(op, c, db.contacts[c].tenantId, db.contacts[c].email)
    ensures c in After(db, op).contacts && SameContact(db.contacts[c], After(db, op).contacts[c])
  {
    hide ExecTenancy, ExecUser, ExecToken, ExecSegment, ExecCampaign, ExecRecipient, ContactClashes;
  }

  lemma ContactDeleteKept(db: Tables, op: Op, c: Id)
    requires op.DeleteContact? && c in db.contacts && Spares(op, c, db.contacts[c].tenantId, db.contacts[c].email)
    ensures c in After(db, op).contacts && After(db, op).contacts[c] == db.contacts[c]
  {
    hide ExecTenancy, ExecUser, ExecToken, ExecSegment, ExecCampaign, ExecRecipient;
  }

  lemma UnsubscribeKept(db: Tables, op: Op, c: Id)
    requires op.Unsubscribe? && c in db.contacts
    ensures c in After(db, op).contacts && SameContact(db.contacts[c], After(db, op).contacts[c])
  {
    hide ExecTenancy, ExecUser, ExecToken, ExecSegment, ExecCampaign, ExecRecipient;
  }

  lemma ContactKept(db: Tables, op: Op, c: Id)
    requires ContactOp(op) && c in db.contacts && Spares(op, c, db.contacts[c].tenantId, db.contacts[c].email)
    ensures c in After(db, op).contacts && SameContact(db.contacts[c], After(db, op).contacts[c])
  {
    hide After;
    if op.CreateContact? {
      ContactCreateKept(db, op, c);
    } else if op.EditContact? {
      ContactEditKept(db, op, c);
    } else if op.DeleteContact? {
      ContactDeleteKept(db, op, c);
    } else {
      UnsubscribeKept(db, op, c);
    }
  }

  lemma TenancyPeople(db: Tables, op: Op)
    requires TenancyOp(op) && !op.DeleteTenant?
    ensures After(db, op).contacts == db.contacts && After(db, op).users == db.users
  {
    hide ExecUser, ExecToken, ExecContact, ExecSegment, ExecCampaign, ExecRecipient, DeleteAllOwned;
  }

  lemma ClientPeople(db: Tables, op: Op)
    requires op.CreateClient? || op.EditClient? || op.DeleteClient? || op.CreateKey?
    ensures After(db, op).contacts == db.contacts && After(db, op).users == db.users
  {
    hide ExecTenancy, ExecUser, ExecContact, ExecSegment, ExecCampaign, ExecRecipient, CodeAccepted;
  }

  lemma CodePeople(db: Tables, op: Op)
    requires op.CreateAuthCode? || op.UseAuthCode?
    ensures After(db, op).contacts == db.contacts && After(db, op).users == db.users
  {
    hide ExecTenancy, ExecUser, ExecContact, ExecSegment, ExecCampaign, ExecRecipient, CodeAccepted;
  }

  lemma RefreshPeople(db: Tables, op: Op)
    requires op.CreateRefreshToken? || op.RevokeRefreshToken?
    ensures After(db, op).contacts == db.contacts && After(db, op).users == db.users
  {
    hide ExecTenancy, ExecUser, ExecContact, ExecSegment, ExecCampaign, ExecRecipient, CodeAccepted;
  }

  lemma TokenPeople(db: Tables, op: Op)
    requires TokenOp(op)
    ensures After(db, op).contacts == db.contacts && After(db, op).users == db.users
  {
    hide After;
    if op.CreateClient? || op.EditClient? || op.DeleteClient? || op.CreateKey? {
      ClientPeople(db, op);
    } else if op.CreateAuthCode? || op.UseAuthCode? {
      CodePeople(db, op);
    } else {
      RefreshPeople(db, op);
    }
  }

  lemma SegmentPeople(db: Tables, op: Op)
    requires SegmentOp(op)
    ensures After(db, op).contacts == db.contacts && After(db, op).users == db.users
  {
    hide ExecTenancy, ExecUser, ExecToken, ExecContact, ExecCampaign, ExecRecipient, SegmentNameTaken, SegmentsOf;
  }

  lemma CampaignPeople(db: Tables, op: Op)
    requires CampaignOp(op)
    ensures After(db, op).contacts == db.contacts && After(db, op).users == db.users
  {
    hide ExecTenancy, ExecUser, ExecToken, ExecContact, ExecSegment, ExecRecipient, InsertCampaignSegments, CampaignsOf;
  }

  lemma RecipientPeople(db: Tables, op: Op)
    requires RecipientOp(op)
    ensures After(db, op).contacts == db.contacts && After(db, op).users == db.users
  {
    hide ExecTenancy, ExecUser, ExecToken, ExecContact, ExecSegment, ExecCampaign, HasRecipient, AddedRows, Eligible;
  }
}

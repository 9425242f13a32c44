/** What every operation of every store keeps: the schema's constraints, and links that stay inside a tenant. */
module StoreInvariants {
  import opened Wrappers
  import opened Schema
  import opened StoreOps

  lemma {:induction false} SegmentsInserted(db: Tables, campaign: Id, segments: seq<Id>)
    requires InsertCampaignSegments(db, campaign, segments).Some?
    ensures
      var rest := InsertCampaignSegments(db, campaign, segments).value;
      && rest == db.(campaignSegments := rest.campaignSegments)
      && (forall p :: p in rest.campaignSegments <==>
            p in db.campaignSegments || (p.0 == campaign && p.1 in segments))
      && (segments != [] ==> campaign in db.campaigns)
      && (forall s :: s in segments ==> s in db.segments)
  {
    if segments != [] {
      SegmentsInserted(db, campaign, segments[..|segments| - 1]);
    }
  }

  lemma DeleteOwnedSound(db: Tables, table: TenantTable, tid: Id)
    requires Sound(db) && DeleteOwned(db, table, tid).Some?
    ensures Sound(DeleteOwned(db, table, tid).value)
  {
    hide UniqueSlugs;
    match table
    case CampaignTable => DeleteCampaignsSound(db, CampaignsOf(db, tid));
    case ContactTable => DeleteContactsSound(db, ContactsOf(db, tid));
    case SegmentTable => DeleteSegmentsSound(db, SegmentsOf(db, tid));
    case UserTable => DeleteUsersSound(db, Scoped(db.users, tid));
    case _ =>
  }

  lemma DeleteCampaignsSound(db: Tables, gone: set<Id>)
    requires Sound(db)
    ensures Sound(DeleteCampaigns(db, gone))
  {
    hide UniqueSlugs, UniqueUsers, UniqueContacts, UniqueSegments, LinksExist, LinksLocal, MembersExist;
  }

  lemma DeleteContactsSound(db: Tables, gone: set<Id>)
    requires Sound(db) && DeleteContacts(db, gone).Some?
    ensures Sound(DeleteContacts(db, gone).value)
  {
    hide UniqueSlugs, UniqueUsers, UniqueSegments, UniqueRecipients, TargetsExist;
  }

  lemma DeleteSegmentsSound(db: Tables, gone: set<Id>)
    requires Sound(db)
    ensures Sound(DeleteSegments(db, gone))
  {
    hide UniqueSlugs, UniqueUsers, UniqueContacts, UniqueRecipients, LinksExist, LinksLocal, RecipientsExist;
    hide RecipientsLocal;
  }

  lemma DeleteUsersSound(db: Tables, gone: set<Id>)
    requires Sound(db) && DeleteUsers(db, gone).Some?
    ensures Sound(DeleteUsers(db, gone).value)
  {
    hide UniqueSlugs, UniqueContacts, UniqueSegments, UniqueRecipients;
    hide MembersExist, TargetsExist, RecipientsExist, RecipientsLocal;
  }

  lemma {:induction false} DeleteAllOwnedSound(db: Tables, tables: seq<TenantTable>, tid: Id)
    requires Sound(db) && DeleteAllOwned(db, tables, tid).Some?
    ensures Sound(DeleteAllOwned(db, tables, tid).value)
  {
    hide DeleteOwned, Sound;
    if tables != [] {
      DeleteAllOwnedSound(db, tables[..|tables| - 1], tid);
      DeleteOwnedSound(DeleteAllOwned(db, tables[..|tables| - 1], tid).value, tables[|tables| - 1], tid);
    }
  }

  lemma PreparedUnique(db: Tables, tid: Id, id: Id, newIds: map<Id, Id>)
    requires UniqueRecipients(db.recipients) && FreshRows(db, Eligible(db, tid, id), newIds)
    ensures UniqueRecipients(Prepared(db, id, newIds).recipients)
  {
    hide Eligible;
    var was, rows := db.recipients, Prepared(db, id, newIds).recipients;
    assert forall r :: r in rows && r !in was ==> !HasRecipient(db, id, newIds[r]);
  }

  lemma PreparedSound(db: Tables, tid: Id, id: Id, newIds: map<Id, Id>)
    requires Sound(db) && InContext(db, PrepareRecipients(tid, id, newIds))
    requires id in db.campaigns || AddedRows(db, id, newIds) == map[]
    ensures Sound(Prepared(db, id, newIds))
  {
    hide UniqueSlugs, UniqueUsers, UniqueContacts, UniqueSegments, UniqueRecipients;
    hide LinksExist, LinksLocal, MembersExist, TargetsExist, Targeted, HasRecipient;
    PreparedUnique(db, tid, id, newIds);
  }

  lemma TenancyKeeps(db: Tables, op: Op)
    requires Sound(db) && TenancyOp(op)
    ensures Sound(After(db, op))
  {
    hide ExecUser, ExecToken, ExecContact, ExecSegment, ExecCampaign, ExecRecipient;
    hide UniqueUsers, UniqueContacts, UniqueSegments, UniqueRecipients, LinksExist, LinksLocal, MembersExist;
    hide TargetsExist, RecipientsExist, RecipientsLocal;
    if op.DeleteTenant? {
      hide DeleteAllOwned;
      if DeleteAllOwned(db, CASCADE, op.id).Some? {
        DeleteAllOwnedSound(db, CASCADE, op.id);
      }
    }
  }

  lemma InsertSegmentsSound(db: Tables, campaign: Id, segments: seq<Id>)
    requires Sound(db) && InsertCampaignSegments(db, campaign, segments).Some?
    ensures Sound(InsertCampaignSegments(db, campaign, segments).value)
  {
    hide UniqueSlugs, UniqueUsers, UniqueContacts, UniqueSegments, UniqueRecipients, LinksExist, LinksLocal;
    hide MembersExist;
    hide RecipientsExist, RecipientsLocal;
    SegmentsInserted(db, campaign, segments);
  }

  lemma CampaignPutSound(db: Tables, id: Id, row: Campaign)
    requires Sound(db) && (id in db.campaigns ==> row.tenantId == db.campaigns[id].tenantId)
    ensures Sound(db.(campaigns := db.campaigns[id := row]))
  {
    hide UniqueSlugs, UniqueUsers, UniqueContacts, UniqueSegments, UniqueRecipients, LinksExist, LinksLocal;
    hide MembersExist;
  }

  lemma ClearedSound(db: Tables, tid: Id, id: Id, content: Content)
    requires Sound(db)
    ensures Sound(Cleared(db, tid, id, content))
  {
    hide UniqueSlugs, UniqueUsers, UniqueContacts, UniqueSegments, UniqueRecipients, LinksExist, LinksLocal;
    hide MembersExist;
  }

  lemma CampaignsKeep(db: Tables, op: Op)
    requires Sound(db) && CampaignOp(op)
    ensures Sound(After(db, op))
  {
    hide ExecTenancy, ExecUser, ExecToken, ExecContact, ExecSegment, ExecRecipient;
    hide Sound, InsertCampaignSegments;
    if op.DeleteCampaign? {
      DeleteCampaignsSound(db, {op.id} * CampaignsOf(db, op.tid));
    } else if op.CreateCampaign? {
      var inserted := InsertCampaign(db, op.id, op.campaign);
      if inserted.Some? && InsertCampaignSegments(inserted.value, op.id, op.segments).Some? {
        CampaignPutSound(db, op.id, op.campaign);
        InsertSegmentsSound(inserted.value, op.id, op.segments);
      }
    } else if op.EditCampaign? {
      hide Cleared;
      var cleared := Cleared(db, op.tid, op.id, op.content);
      if InsertCampaignSegments(cleared, op.id, op.segments).Some? {
        ClearedSound(db, op.tid, op.id, op.content);
        InsertSegmentsSound(cleared, op.id, op.segments);
      }
    } else if op.id in CampaignsOf(db, op.tid) {
      CampaignPutSound(db, op.id, WithStatus(db.campaigns[op.id], op.status, op.now));
    }
  }

  lemma UniqueRecipientsAt(rows: map<Id, Recipient>, id: Id)
    requires UniqueRecipients(rows) && id in rows
    ensures forall r :: r in rows && r != id ==> !SamePair(rows[r], rows[id])
  {
  }

  lemma UniqueRecipientsPut(rows: map<Id, Recipient>, id: Id, row: Recipient)
    requires UniqueRecipients(rows)
    requires forall r :: r in rows && r != id ==> !SamePair(rows[r], row)
    ensures UniqueRecipients(rows[id := row])
  {
  }

  lemma UniqueContactsAt(rows: map<Id, Contact>, id: Id)
    requires UniqueContacts(rows) && id in rows
    ensures forall c :: c in rows && c != id ==> !Clash(rows[id], rows[c])
  {
  }

  lemma UniqueContactsPut(rows: map<Id, Contact>, id: Id, row: Contact)
    requires UniqueContacts(rows)
    requires forall c :: c in rows && c != id ==> !Clash(row, rows[c])
    ensures UniqueContacts(rows[id := row])
  {
    assert forall c, d :: Clash(c, d) ==> Clash(d, c);
  }

  lemma RecipientPutSound(db: Tables, id: Id, row: Recipient)
    requires Sound(db)
    requires row.campaignId in db.campaigns && row.contactId in db.contacts
    requires db.campaigns[row.campaignId].tenantId == db.contacts[row.contactId].tenantId
    requires forall r :: r in db.recipients && r != id ==> !SamePair(db.recipients[r], row)
    ensures Sound(db.(recipients := db.recipients[id := row]))
  {
    hide UniqueSlugs, UniqueUsers, UniqueContacts, UniqueSegments, UniqueRecipients;
    hide LinksExist, LinksLocal, MembersExist, TargetsExist;
    UniqueRecipientsPut(db.recipients, id, row);
  }

  lemma ContactPutSound(db: Tables, id: Id, row: Contact)
    requires Sound(db)
    requires id in db.contacts ==> row.tenantId == db.contacts[id].tenantId
    requires row.userId.Some? ==> row.userId.value in db.users && db.users[row.userId.value].tenantId == row.tenantId
    requires forall c :: c in db.contacts && c != id ==> !Clash(row, db.contacts[c])
    ensures Sound(db.(contacts := db.contacts[id := row]))
  {
    hide UniqueSlugs, UniqueUsers, UniqueContacts, UniqueSegments, UniqueRecipients, TargetsExist;
    UniqueContactsPut(db.contacts, id, row);
  }

  lemma PreparationKeeps(db: Tables, op: Op)
    requires Sound(db) && InContext(db, op) && op.PrepareRecipients?
    ensures Sound(After(db, op))
  {
    hide ExecTenancy, ExecUser, ExecToken, ExecContact, ExecSegment, ExecCampaign, FreshRows, Prepared, Sound;
    if op.id in db.campaigns || AddedRows(db, op.id, op.newIds) == map[] {
      PreparedSound(db, op.tid, op.id, op.newIds);
    }
  }

  lemma RecipientCreationKeeps(db: Tables, op: Op)
    requires Sound(db) && InContext(db, op) && op.CreateRecipient?
    ensures Sound(After(db, op))
  {
    hide ExecTenancy, ExecUser, ExecToken, ExecContact, ExecSegment, ExecCampaign, Sound;
    if After(db, op) != db {
      RecipientPutSound(db, op.id, op.recipient);
    }
  }

  lemma RecipientUpdateKeeps(db: Tables, op: Op)
    requires Sound(db) && (op.SetRecipientStatus? || op.RecordOpen?)
    ensures Sound(After(db, op))
  {
    hide ExecTenancy, ExecUser, ExecToken, ExecContact, ExecSegment, ExecCampaign;
    if After(db, op) != db {
      hide UniqueSlugs, UniqueUsers, UniqueContacts, UniqueSegments, UniqueRecipients;
      hide LinksExist, LinksLocal, MembersExist, TargetsExist;
      UniqueRecipientsAt(db.recipients, op.id);
      RecipientPutSound(db, op.id, After(db, op).recipients[op.id]);
    }
  }

  lemma RecipientsKeep(db: Tables, op: Op)
    requires Sound(db) && InContext(db, op) && RecipientOp(op)
    ensures Sound(After(db, op))
  {
    if op.PrepareRecipients? {
      hide Sound, After;
      PreparationKeeps(db, op);
    } else if op.CreateRecipient? {
      hide Sound, After;
      RecipientCreationKeeps(db, op);
    } else {
      hide Sound, After;
      RecipientUpdateKeeps(db, op);
    }
  }

  lemma UnsubscribeKeeps(db: Tables, tid: Id, token: Id)
    requires Sound(db)
    ensures Sound(After(db, Unsubscribe(tid, token)))
  {
    hide ExecTenancy, ExecUser, ExecToken, ExecSegment, ExecCampaign, ExecRecipient;
    hide UniqueSlugs, UniqueUsers, UniqueContacts, UniqueSegments, UniqueRecipients, TargetsExist, Clash;
    UniqueContactsAlike(db.contacts, After(db, Unsubscribe(tid, token)).contacts);
  }

  lemma UniqueContactsAlike(rows: map<Id, Contact>, alike: map<Id, Contact>)
    requires UniqueContacts(rows) && alike.Keys == rows.Keys
    requires forall c :: c in rows ==> alike[c] == rows[c].(unsubscribed := alike[c].unsubscribed)
    ensures UniqueContacts(alike)
  {
    forall a, b | a in alike && b in alike && Clash(alike[a], alike[b])
      ensures a == b
    {
      assert Clash(rows[a], rows[b]);
    }
  }

  lemma ContactsKeep(db: Tables, op: Op)
    requires Sound(db) && ContactOp(op)
    ensures Sound(After(db, op))
  {
    hide ExecTenancy, ExecUser, ExecToken, ExecSegment, ExecCampaign, ExecRecipient;
    if op.DeleteContact? {
      hide DeleteContacts, Sound;
      if DeleteContacts(db, {op.id} * ContactsOf(db, op.tid)).Some? {
        DeleteContactsSound(db, {op.id} * ContactsOf(db, op.tid));
      }
    } else if op.Unsubscribe? {
      hide Sound, After;
      UnsubscribeKeeps(db, op.tid, op.token);
    } else if After(db, op) != db {
      hide UniqueSlugs, UniqueUsers, UniqueContacts, UniqueSegments, UniqueRecipients;
      hide MembersExist, TargetsExist, RecipientsExist, RecipientsLocal;
      ContactPutSound(db, op.id, After(db, op).contacts[op.id]);
    }
  }

  lemma SegmentWritesKeep(db: Tables, op: Op)
    requires Sound(db) && (op.CreateSegment? || op.EditSegment?)
    ensures Sound(After(db, op))
  {
    hide ExecTenancy, ExecUser, ExecToken, ExecContact, ExecCampaign, ExecRecipient;
    hide UniqueSlugs, UniqueUsers, UniqueContacts, UniqueRecipients, LinksExist, LinksLocal, RecipientsExist;
    hide RecipientsLocal;
  }

  lemma MembershipsKeep(db: Tables, op: Op)
    requires Sound(db) && (op.AddToSegment? || op.RemoveFromSegment?)
    ensures Sound(After(db, op))
  {
    hide ExecTenancy, ExecUser, ExecToken, ExecContact, ExecCampaign, ExecRecipient;
    hide UniqueSlugs, UniqueUsers, UniqueContacts, UniqueSegments, UniqueRecipients, LinksExist, LinksLocal;
    hide RecipientsExist, RecipientsLocal, TargetsExist;
  }

  lemma SegmentsKeep(db: Tables, op: Op)
    requires Sound(db) && SegmentOp(op)
    ensures Sound(After(db, op))
  {
    if op.CreateSegment? || op.EditSegment? {
      hide Sound, After;
      SegmentWritesKeep(db, op);
    } else if op.DeleteSegment? {
      hide ExecTenancy, ExecUser, ExecToken, ExecContact, ExecCampaign, ExecRecipient, Sound, DeleteSegments;
      DeleteSegmentsSound(db, {op.id} * SegmentsOf(db, op.tid));
    } else {
      hide Sound, After;
      MembershipsKeep(db, op);
    }
  }

  lemma UserPutSound(db: Tables, id: Id, row: User)
    requires Sound(db)
    requires id in db.users ==> row.tenantId == db.users[id].tenantId && row.email == db.users[id].email
    requires id !in db.users ==> !EmailTaken(db, row.tenantId, row.email)
    ensures Sound(db.(users := db.users[id := row]))
  {
    hide UniqueSlugs, UniqueSegments, UniqueRecipients, UniqueContacts;
    hide MembersExist, TargetsExist, RecipientsExist, RecipientsLocal;
  }

  lemma UsersKeep(db: Tables, op: Op)
    requires Sound(db) && InContext(db, op) && UserOp(op)
    ensures Sound(After(db, op))
  {
    hide ExecTenancy, ExecToken, ExecContact, ExecSegment, ExecCampaign, ExecRecipient;
    hide Sound;
    if op.Activate? {
      hide After;
      ActivateKeeps(db, op);
    } else if op.DeleteUser? {
      hide DeleteUsers;
      if DeleteUsers(db, {op.id} * Scoped(db.users, op.tid)).Some? {
        DeleteUsersSound(db, {op.id} * Scoped(db.users, op.tid));
      }
    } else if After(db, op) != db {
      UserPutSound(db, op.id, After(db, op).users[op.id]);
    }
  }

  lemma ActivateKeeps(db: Tables, op: Op)
    requires Sound(db) && InContext(db, op) && op.Activate?
    ensures Sound(After(db, op))
  {
    hide ExecTenancy, ExecToken, ExecContact, ExecSegment, ExecCampaign, ExecRecipient;
    var Activate(tid, contact, userId, row) := op;
    if InsertUser(db, userId, row).Some? {
      var inserted := InsertUser(db, userId, row).value;
      UserPutSound(db, userId, row);
      if contact in ContactsOf(db, tid) {
        hide InsertUser;
        assert forall c :: c in db.contacts && c != contact ==> !Clash(db.contacts[contact], db.contacts[c]) by {
          UniqueContactsAt(db.contacts, contact);
        }
        hide Sound;
        ContactPutSound(inserted, contact, db.contacts[contact].(userId := Some(userId), inviteToken := None));
      }
    }
  }

  lemma TokensKeep(db: Tables, op: Op)
    requires Sound(db) && TokenOp(op)
    ensures Sound(After(db, op))
  {
    hide ExecTenancy, ExecUser, ExecContact, ExecSegment, ExecCampaign, ExecRecipient;
    hide UniqueSlugs, UniqueUsers, UniqueContacts, UniqueSegments, UniqueRecipients;
    hide LinksExist, LinksLocal, MembersExist, TargetsExist, RecipientsExist, RecipientsLocal;
  }

  /** Every operation of every store keeps the constraints and the tenant-locality no constraint states. */
  lemma SoundKept(db: Tables, op: Op)
    requires Sound(db) && InContext(db, op)
    ensures Sound(After(db, op))
  {
    if TenancyOp(op) {
      hide Sound, After;
      TenancyKeeps(db, op);
    } else if CampaignOp(op) {
      hide Sound, After;
      CampaignsKeep(db, op);
    } else if RecipientOp(op) {
      hide Sound, After;
      RecipientsKeep(db, op);
    } else if ContactOp(op) {
      hide Sound, After;
      ContactsKeep(db, op);
    } else if SegmentOp(op) {
      hide Sound, After;
      SegmentsKeep(db, op);
    } else if UserOp(op) {
      hide Sound, After;
      UsersKeep(db, op);
    } else {
      hide Sound, After;
      TokensKeep(db, op);
    }
  }

  function AfterAll(db: Tables, ops: seq<Op>): Tables {
    if ops == [] then db else After(AfterAll(db, ops[..|ops| - 1]), ops[|ops| - 1])
  }

  ghost predicate AllInContext(db: Tables, ops: seq<Op>) {
    forall i :: 0 <= i < |ops| ==> InContext(AfterAll(db, ops[..i]), ops[i])
  }

  lemma {:induction false} RunsAreSound(db: Tables, ops: seq<Op>)
    requires Sound(db) && AllInContext(db, ops)
    ensures Sound(AfterAll(db, ops))
  {
    hide Sound, After, InContext;
    if ops != [] {
      var n := |ops| - 1;
      assert forall i :: 0 <= i < n ==> ops[..n][..i] == ops[..i];
      RunsAreSound(db, ops[..n]);
      assert InContext(AfterAll(db, ops[..n]), ops[n]);
      SoundKept(AfterAll(db, ops[..n]), ops[n]);
    }
  }
}

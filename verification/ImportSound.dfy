/**
 * An import is a run of operations in their contexts, whatever its document says: the recipients it adds are between a
 * campaign and a contact of the new tenant. So it keeps the tables sound.
 */
module ImportSound {
  import opened Wrappers
  import opened Schema
  import opened StoreOps
  import opened StoreInvariants
  import opened TenantConfig
  import opened TenantImport
  import opened TenantImporter

  lemma ExecSound(db: Tables, op: Op)
    requires Sound(db) && InContext(db, op) && Exec(db, op).Some?
    ensures Sound(Exec(db, op).value)
  {
    hide Sound, Exec, InContext;
    SoundKept(db, op);
  }

  lemma UserIs(db: Tables, id: Id, row: User)
    ensures Exec(db, CreateUser(id, row)) == InsertUser(db, id, row) && InContext(db, CreateUser(id, row))
  {
    hide InsertUser;
  }

  lemma ClientIs(db: Tables, id: Id, row: Client)
    ensures Exec(db, Op.CreateClient(id, row)) == InsertClient(db, id, row) && InContext(db, Op.CreateClient(id, row))
  {
    hide InsertClient;
  }

  lemma SegmentIs(db: Tables, id: Id, row: Segment)
    ensures Exec(db, CreateSegment(id, row)) == InsertSegment(db, id, row) && InContext(db, CreateSegment(id, row))
  {
    hide InsertSegment;
  }

  lemma ContactIs(db: Tables, id: Id, row: Contact)
    requires row.userId.None?
    ensures Exec(db, CreateContact(id, row)) == InsertContact(db, id, row) && InContext(db, CreateContact(id, row))
  {
    hide InsertContact;
    assert row.(userId := None) == row;
  }

  lemma MemberIs(db: Tables, contact: Id, segment: Id)
    ensures Exec(db, AddToSegment(contact, segment)) == InsertContactSegment(db, contact, segment)
    ensures InContext(db, AddToSegment(contact, segment))
  {
    hide InsertContactSegment;
  }

  lemma RecipientIs(db: Tables, tid: Id, id: Id, row: Recipient)
    ensures Exec(db, CreateRecipient(tid, id, row)) == InsertRecipient(db, id, row)
  {
    hide InsertRecipient;
  }

  // --- The loops ---

  lemma {:induction false} UsersSound(p: Platform, s: Loaded, tid: Id, users: seq<UserConfig>, now: Time)
    requires Sound(s.db) && AddUsers(p, s, tid, users, now).Some?
    ensures
      var t := AddUsers(p, s, tid, users, now).value;
      Sound(t.db) && t.contacts == s.contacts
  {
    hide Sound, Exec, InContext, InsertUser, NewUser;
    if users != [] {
      var n := |users| - 1;
      UsersSound(p, s, tid, users[..n], now);
      var t := AddUsers(p, s, tid, users[..n], now).value;
      UserIs(t.db, p.uuid(t.next), NewUser(p, tid, users[n], now));
      ExecSound(t.db, CreateUser(p.uuid(t.next), NewUser(p, tid, users[n], now)));
    }
  }

  lemma {:induction false} ClientsSound(p: Platform, s: Loaded, tid: Id, clients: seq<ClientConfig>, now: Time)
    requires Sound(s.db) && AddClients(p, s, tid, clients, now).Some?
    ensures
      var t := AddClients(p, s, tid, clients, now).value;
      Sound(t.db) && t.contacts == s.contacts
  {
    hide Sound, Exec, InContext, InsertClient;
    if clients != [] {
      var n, c := |clients| - 1, clients[|clients| - 1];
      ClientsSound(p, s, tid, clients[..n], now);
      var t := AddClients(p, s, tid, clients[..n], now).value;
      var row := Client(tid, SecretHash(p, t, c), c.name, c.redirectUris, now);
      ClientIs(t.db, ClientId(p, t, c), row);
      ExecSound(t.db, Op.CreateClient(ClientId(p, t, c), row));
    }
  }

  lemma {:induction false} SegmentsSound(p: Platform, s: Loaded, tid: Id, segments: seq<SegmentConfig>, now: Time)
    requires Sound(s.db) && AddSegments(p, s, tid, segments, now).Some?
    ensures
      var t := AddSegments(p, s, tid, segments, now).value;
      Sound(t.db) && t.contacts == s.contacts
  {
    hide Sound, Exec, InContext, InsertSegment;
    if segments != [] {
      var n, g := |segments| - 1, segments[|segments| - 1];
      SegmentsSound(p, s, tid, segments[..n], now);
      var t := AddSegments(p, s, tid, segments[..n], now).value;
      SegmentIs(t.db, p.uuid(t.next), Segment(tid, g.name, g.description, now));
      ExecSound(t.db, CreateSegment(p.uuid(t.next), Segment(tid, g.name, g.description, now)));
    }
  }

  /** Whatever the email-to-id map knows is a contact of the tenant. */
  ghost predicate MapsOwn(s: Loaded, tid: Id) {
    forall e :: e in s.contacts ==> s.contacts[e] in s.db.contacts && s.db.contacts[s.contacts[e]].tenantId == tid
  }

  lemma {:induction false} JoinSound(db: Tables, contact: Id, segments: seq<Id>)
    requires Sound(db) && JoinSegments(db, contact, segments).Some?
    ensures
      var joined := JoinSegments(db, contact, segments).value;
      Sound(joined) && joined.contacts == db.contacts
  {
    hide Sound, Exec, InContext;
    if segments != [] {
      var n := |segments| - 1;
      JoinSound(db, contact, segments[..n]);
      var joined := JoinSegments(db, contact, segments[..n]).value;
      MemberIs(joined, contact, segments[n]);
      ExecSound(joined, AddToSegment(contact, segments[n]));
    }
  }

  lemma ContactSound(p: Platform, s: Loaded, tid: Id, c: ContactConfig, now: Time)
    requires Sound(s.db) && MapsOwn(s, tid) && AddContact(p, s, tid, c, now).Some?
    ensures
      var t := AddContact(p, s, tid, c, now).value;
      Sound(t.db) && MapsOwn(t, tid)
  {
    hide Sound, Exec, InContext, JoinSegments, Known, ContactClashes;
    if ContactOk(p, c) {
      var id, row := p.uuid(s.next), NewContact(p, tid, c, s.next, now);
      ContactIs(s.db, id, row);
      ExecSound(s.db, CreateContact(id, row));
      JoinSound(InsertContact(s.db, id, row).value, id, Known(s.segments, c.segments));
    }
  }

  lemma {:induction false} ContactsSound(p: Platform, s: Loaded, tid: Id, contacts: seq<ContactConfig>, now: Time)
    requires Sound(s.db) && MapsOwn(s, tid) && AddContacts(p, s, tid, contacts, now).Some?
    ensures
      var t := AddContacts(p, s, tid, contacts, now).value;
      Sound(t.db) && MapsOwn(t, tid)
  {
    hide Sound, MapsOwn, AddContact;
    if contacts != [] {
      var n := |contacts| - 1;
      ContactsSound(p, s, tid, contacts[..n], now);
      ContactSound(p, AddContacts(p, s, tid, contacts[..n], now).value, tid, contacts[n], now);
    }
  }

  predicate OwnCampaign(db: Tables, tid: Id, campaign: Id) {
    campaign in db.campaigns && db.campaigns[campaign].tenantId == tid
  }

  lemma RecipientSound(p: Platform, s: Loaded, tid: Id, campaign: Id, r: RecipientConfig)
    requires Sound(s.db) && MapsOwn(s, tid) && OwnCampaign(s.db, tid, campaign)
    requires AddRecipient(p, s, tid, campaign, r).Some?
    ensures
      var t := AddRecipient(p, s, tid, campaign, r).value;
      Sound(t.db) && MapsOwn(t, tid) && OwnCampaign(t.db, tid, campaign)
  {
    hide Sound, Exec, HasRecipient;
    var contact := Resolved(s, tid, r.email).value;
    var row := Recipient(campaign, contact, r.status, r.errorMessage, r.sentAt, r.openedAt);
    RecipientIs(s.db, tid, p.uuid(s.next), row);
    assert InContext(s.db, CreateRecipient(tid, p.uuid(s.next), row));
    ExecSound(s.db, CreateRecipient(tid, p.uuid(s.next), row));
    hide InContext;
  }

  lemma {:induction false} RecipientsSound(p: Platform, s: Loaded, tid: Id, campaign: Id, rows: seq<RecipientConfig>)
    requires Sound(s.db) && MapsOwn(s, tid) && OwnCampaign(s.db, tid, campaign)
    requires AddRecipients(p, s, tid, campaign, rows).Some?
    ensures
      var t := AddRecipients(p, s, tid, campaign, rows).value;
      Sound(t.db) && MapsOwn(t, tid) && OwnCampaign(t.db, tid, campaign)
  {
    hide Sound, MapsOwn, OwnCampaign, AddRecipient;
    if rows != [] {
      var n := |rows| - 1;
      RecipientsSound(p, s, tid, campaign, rows[..n]);
      RecipientSound(p, AddRecipients(p, s, tid, campaign, rows[..n]).value, tid, campaign, rows[n]);
    }
  }

  lemma CreatedIsOwn(db: Tables, tid: Id, id: Id, row: Campaign, segments: seq<Id>)
    requires row.tenantId == tid && Exec(db, Op.CreateCampaign(id, row, segments)).Some?
    ensures OwnCampaign(Exec(db, Op.CreateCampaign(id, row, segments)).value, tid, id)
    ensures InContext(db, Op.CreateCampaign(id, row, segments))
  {
    hide ExecTenancy, ExecUser, ExecToken, ExecContact, ExecSegment, ExecRecipient, InsertCampaignSegments;
  }

  lemma CampaignSound(p: Platform, s: Loaded, tid: Id, c: CampaignConfig, now: Time)
    requires Sound(s.db) && MapsOwn(s, tid) && AddCampaign(p, s, tid, c, now).Some?
    ensures
      var t := AddCampaign(p, s, tid, c, now).value;
      Sound(t.db) && MapsOwn(t, tid)
  {
    hide Sound, Exec, InContext, AddRecipients, Known, OwnCampaign;
    var id, row, segments := p.uuid(s.next), NewCampaign(tid, c, now), Known(s.segments, c.segments);
    CreatedIsOwn(s.db, tid, id, row, segments);
    CampaignKeepsContacts(s.db, id, row, segments);
    ExecSound(s.db, Op.CreateCampaign(id, row, segments));
    hide NewCampaign;
    if Dated(c) {
      var db := Exec(s.db, Op.CreateCampaign(id, row, segments)).value;
      RecipientsSound(p, s.(db := db, next := s.next + 1), tid, id, c.recipients);
    }
  }

  lemma {:induction false} CampaignsSound(p: Platform, s: Loaded, tid: Id, campaigns: seq<CampaignConfig>, now: Time)
    requires Sound(s.db) && MapsOwn(s, tid) && AddCampaigns(p, s, tid, campaigns, now).Some?
    ensures
      var t := AddCampaigns(p, s, tid, campaigns, now).value;
      Sound(t.db) && MapsOwn(t, tid)
  {
    hide Sound, MapsOwn, AddCampaign;
    if campaigns != [] {
      var n := |campaigns| - 1;
      CampaignsSound(p, s, tid, campaigns[..n], now);
      CampaignSound(p, AddCampaigns(p, s, tid, campaigns[..n], now).value, tid, campaigns[n], now);
    }
  }

  lemma TenantSound(p: Platform, db: Tables, cfg: ImportConfig, now: Time, next: nat)
    requires Sound(db) && p.uuid(next) !in db.tenants && !SlugTaken(db, cfg.slug)
    ensures Sound(WithEmptyTenant(p, db, cfg, now, next).db)
  {
    hide UniqueUsers, UniqueContacts, UniqueSegments, UniqueRecipients, LinksExist, LinksLocal, MembersExist;
    hide TargetsExist, RecipientsExist, RecipientsLocal;
  }

  /** Whatever document is imported, a finished import leaves sound tables. */
  lemma ImportKeepsSound(p: Platform, db: Tables, cfg: ImportConfig, now: Time, next: nat)
    requires Sound(db) && p.uuid(next) !in db.tenants && !SlugTaken(db, cfg.slug)
    requires Import(p, db, cfg, now, next).Some?
    ensures Sound(Import(p, db, cfg, now, next).value.db)
  {
    TenantSound(p, db, cfg, now, next);
    hide Sound, AddUsers, AddClients, AddSegments, AddContacts, AddCampaigns, Merged, UsersOk, ClientsOk;
    var tid, s := p.uuid(next), WithEmptyTenant(p, db, cfg, now, next);
    var users := Merged(p, cfg.admin, cfg.users);
    UsersSound(p, s, tid, users, now);
    var s1 := AddUsers(p, s, tid, users, now).value;
    ClientsSound(p, s1, tid, cfg.clients, now);
    var s2 := AddClients(p, s1, tid, cfg.clients, now).value;
    SegmentsSound(p, s2, tid, cfg.segments, now);
    var s3 := AddSegments(p, s2, tid, cfg.segments, now).value;
    assert MapsOwn(s3, tid);
    hide MapsOwn;
    ContactsSound(p, s3, tid, cfg.contacts, now);
    CampaignsSound(p, AddContacts(p, s3, tid, cfg.contacts, now).value, tid, cfg.campaigns, now);
  }
}

/**
 * What an import does with any document: when it is refused, what the tenant is afterwards, and what it leaves alone.
 */
module ImportMeaning {
  import opened Wrappers
  import opened Schema
  import opened StoreOps
  import opened TenantViews
  import opened TenantConfig
  import opened TenantImport
  import opened ImportPeople
  import opened ImportContacts
  import opened ImportCampaigns

  // --- The last three loops leave the people alone and change no row ---

  /** Users, clients and tenants are as before, and no row of another table is gone or changed. */
  ghost predicate Grows(db: Tables, after: Tables) {
    && after == db.(contacts := after.contacts, segments := after.segments, contactSegments := after.contactSegments,
                    campaigns := after.campaigns, campaignSegments := after.campaignSegments,
                    recipients := after.recipients)
    && (forall k :: k in db.contacts ==> k in after.contacts && after.contacts[k] == db.contacts[k])
    && (forall k :: k in db.segments ==> k in after.segments && after.segments[k] == db.segments[k])
    && (forall k :: k in db.campaigns ==> k in after.campaigns && after.campaigns[k] == db.campaigns[k])
    && (forall k :: k in db.recipients ==> k in after.recipients && after.recipients[k] == db.recipients[k])
    && db.contactSegments <= after.contactSegments && db.campaignSegments <= after.campaignSegments
  }

  lemma {:induction false} SegmentsGrowTables(p: Platform, s: Loaded, tid: Id, segments: seq<SegmentConfig>, now: Time)
    requires AddSegments(p, s, tid, segments, now).Some?
    ensures Grows(s.db, AddSegments(p, s, tid, segments, now).value.db)
  {
    if segments != [] {
      var n := |segments| - 1;
      SegmentsGrowTables(p, s, tid, segments[..n], now);
      var t := AddSegments(p, s, tid, segments[..n], now).value;
      hide AddSegments;
      assert Grows(t.db, AddSegment(p, t, tid, segments[n], now).value.db);
    }
  }

  lemma {:induction false} JoiningGrows(db: Tables, contact: Id, segments: seq<Id>)
    requires JoinSegments(db, contact, segments).Some?
    ensures Grows(db, JoinSegments(db, contact, segments).value)
  {
    if segments != [] {
      var n := |segments| - 1;
      JoiningGrows(db, contact, segments[..n]);
      var joined := JoinSegments(db, contact, segments[..n]).value;
      assert Grows(joined, InsertContactSegment(joined, contact, segments[n]).value);
    }
  }

  lemma ContactGrows(p: Platform, s: Loaded, tid: Id, c: ContactConfig, now: Time)
    requires AddContact(p, s, tid, c, now).Some?
    ensures Grows(s.db, AddContact(p, s, tid, c, now).value.db)
  {
    hide JoinSegments, NewContact, Known, ContactClashes, ContactOk;
    if ContactOk(p, c) {
      var inserted := InsertContact(s.db, p.uuid(s.next), NewContact(p, tid, c, s.next, now)).value;
      assert Grows(s.db, inserted);
      JoiningGrows(inserted, p.uuid(s.next), Known(s.segments, c.segments));
    }
  }

  lemma {:induction false} ContactsGrowTables(p: Platform, s: Loaded, tid: Id, contacts: seq<ContactConfig>, now: Time)
    requires AddContacts(p, s, tid, contacts, now).Some?
    ensures Grows(s.db, AddContacts(p, s, tid, contacts, now).value.db)
  {
    hide AddContact;
    if contacts != [] {
      var n := |contacts| - 1;
      ContactsGrowTables(p, s, tid, contacts[..n], now);
      ContactGrows(p, AddContacts(p, s, tid, contacts[..n], now).value, tid, contacts[n], now);
    }
  }

  lemma {:induction false} RecipientsGrowTables(p: Platform, s: Loaded, tid: Id, campaign: Id,
                                                rows: seq<RecipientConfig>)
    requires AddRecipients(p, s, tid, campaign, rows).Some?
    ensures Grows(s.db, AddRecipients(p, s, tid, campaign, rows).value.db)
  {
    hide AddRecipient;
    if rows != [] {
      var n := |rows| - 1;
      RecipientsGrowTables(p, s, tid, campaign, rows[..n]);
      var t := AddRecipients(p, s, tid, campaign, rows[..n]).value;
      hide AddRecipients, Grows;
      RecipientGrows(p, t, tid, campaign, rows[n]);
      GrowsOn(s.db, t.db, AddRecipient(p, t, tid, campaign, rows[n]).value.db);
    }
  }

  lemma RecipientGrows(p: Platform, s: Loaded, tid: Id, campaign: Id, r: RecipientConfig)
    requires AddRecipient(p, s, tid, campaign, r).Some?
    ensures Grows(s.db, AddRecipient(p, s, tid, campaign, r).value.db)
  {
    hide HasRecipient, Resolved;
  }

  lemma {:induction false} TargetingGrows(db: Tables, campaign: Id, segments: seq<Id>)
    requires InsertCampaignSegments(db, campaign, segments).Some?
    ensures Grows(db, InsertCampaignSegments(db, campaign, segments).value)
  {
    if segments != [] {
      var n := |segments| - 1;
      TargetingGrows(db, campaign, segments[..n]);
      var rest := InsertCampaignSegments(db, campaign, segments[..n]).value;
      assert Grows(rest, InsertCampaignSegment(rest, campaign, segments[n]).value);
    }
  }

  lemma CreatedGrows(db: Tables, id: Id, row: Campaign, segments: seq<Id>)
    requires Exec(db, CreateCampaign(id, row, segments)).Some?
    ensures Grows(db, Exec(db, CreateCampaign(id, row, segments)).value)
  {
    hide ExecTenancy, ExecUser, ExecToken, ExecContact, ExecSegment, ExecRecipient, InsertCampaignSegments;
    var inserted := InsertCampaign(db, id, row).value;
    assert Grows(db, inserted);
    TargetingGrows(inserted, id, segments);
  }

  lemma CampaignGrows(p: Platform, s: Loaded, tid: Id, c: CampaignConfig, now: Time)
    requires AddCampaign(p, s, tid, c, now).Some?
    ensures Grows(s.db, AddCampaign(p, s, tid, c, now).value.db)
  {
    hide Exec, NewCampaign, Known, AddRecipients, Dated;
    var id, row, segments := p.uuid(s.next), NewCampaign(tid, c, now), Known(s.segments, c.segments);
    CreatedGrows(s.db, id, row, segments);
    if Dated(c) {
      var db := Exec(s.db, CreateCampaign(id, row, segments)).value;
      RecipientsGrowTables(p, s.(db := db, next := s.next + 1), tid, id, c.recipients);
    }
  }

  lemma {:induction false} CampaignsGrowTables(p: Platform, s: Loaded, tid: Id, campaigns: seq<CampaignConfig>,
                                               now: Time)
    requires AddCampaigns(p, s, tid, campaigns, now).Some?
    ensures Grows(s.db, AddCampaigns(p, s, tid, campaigns, now).value.db)
  {
    hide AddCampaign;
    if campaigns != [] {
      var n := |campaigns| - 1;
      CampaignsGrowTables(p, s, tid, campaigns[..n], now);
      CampaignGrows(p, AddCampaigns(p, s, tid, campaigns[..n], now).value, tid, campaigns[n], now);
    }
  }

  // --- People ---

  lemma EmailsDiffer(p: Platform, users: seq<UserConfig>)
    requires UsersOk(p, users)
    ensures forall i, j :: 0 <= i < j < |users| ==> users[i].email != users[j].email
  {
  }

  /**
   * Whatever else the document says, a finished import has added exactly its users and clients, and has changed no row
   * of any table.
   */
  lemma PeopleAdded(p: Platform, s: Loaded, tid: Id, cfg: ImportConfig, now: Time)
    requires Fresh(p, s.next, s.db) && UsersView(s.db.users, tid) == {} && AddAll(p, s, tid, cfg, now).Some?
    ensures
      var db, users := AddAll(p, s, tid, cfg, now).value.db, Merged(p, cfg.admin, cfg.users);
      && UsersOk(p, users) && UserRows(p, s.db.users, db.users, s.next, tid, users, now)
      && ClientsOk(p, cfg.clients)
      && ClientRows(p, s.db.clients, db.clients, s.next + |users|, tid, cfg.clients, now)
      && Grows(s.db.(users := db.users, clients := db.clients), db)
  {
    hide AddUsers, AddClients, AddSegments, AddContacts, AddCampaigns, Merged, UsersOk, ClientsOk, Fresh, UsersView;
    hide UserRows, ClientRows, ClientIdsFree;
    var users := Merged(p, cfg.admin, cfg.users);
    EmailsDiffer(p, users);
    UsersAdded(p, s, tid, users, now);
    var s1 := AddUsers(p, s, tid, users, now).value;
    ClientsAdded(p, s1, tid, cfg.clients, now);
    var s2 := AddClients(p, s1, tid, cfg.clients, now).value;
    SegmentsGrowTables(p, s2, tid, cfg.segments, now);
    var s3 := AddSegments(p, s2, tid, cfg.segments, now).value;
    ContactsGrowTables(p, s3, tid, cfg.contacts, now);
    var s4 := AddContacts(p, s3, tid, cfg.contacts, now).value;
    CampaignsGrowTables(p, s4, tid, cfg.campaigns, now);
    GrowsOn(s2.db, s3.db, s4.db);
    GrowsOn(s2.db, s4.db, AddAll(p, s, tid, cfg, now).value.db);
  }

  lemma GrowsOn(a: Tables, b: Tables, c: Tables)
    requires Grows(a, b) && Grows(b, c)
    ensures Grows(a, c)
  {
  }

  // --- The whole document ---

  /** A tenant without segments, contacts and campaigns, in tables without dangling references. */
  ghost predicate NoMarketing(p: Platform, s: Loaded, tid: Id) {
    && Fresh(p, s.next, s.db) && s.segments == map[] && s.contacts == map[]
    && SegmentsMapped(s, tid) && ContactsMapped(s, tid) && CampaignsOf(s.db, tid) == {}
    && MembersExist(s.db.contactSegments, s.db.contacts, s.db.segments)
    && TargetsExist(s.db.campaignSegments, s.db.campaigns, s.db.segments)
    && RecipientsExist(s.db.recipients, s.db.campaigns, s.db.contacts)
  }

  ghost predicate Empty(p: Platform, s: Loaded, tid: Id) {
    NoMarketing(p, s, tid) && UsersView(s.db.users, tid) == {} && ClientsView(s.db.clients, tid) == {}
  }

  lemma PeopleOnly(p: Platform, s: Loaded, t: Loaded, tid: Id)
    requires NoMarketing(p, s, tid) && Fresh(p, t.next, t.db)
    requires t == s.(db := s.db.(users := t.db.users, clients := t.db.clients), next := t.next)
    ensures NoMarketing(p, t, tid)
  {
    hide Fresh;
  }

  /** The invites a document brings are none of the fresh ones. */
  ghost predicate OwnInvites(p: Platform, cfg: ImportConfig) {
    forall i :: 0 <= i < |cfg.contacts| ==> OwnInvite(p, cfg.contacts[i])
  }

  /** The marketing part of the document as the tenant has it. */
  ghost predicate Marketed(p: Platform, t: Loaded, tid: Id, cfg: ImportConfig, now: Time, ids: seq<Id>) {
    && SegmentsView(t.db.segments, tid) == SegmentViews(cfg.segments)
    && ContactsStored(p, t, tid, cfg.contacts, now)
    && ContactsNow(t, tid) == ContactViews(p, cfg.contacts, SegmentNames(cfg.segments), now)
    && Made(t, tid, cfg.campaigns, SegmentNames(cfg.segments), now, ids)
  }

  /** When nothing of the marketing part is refused. */
  ghost predicate Marketable(p: Platform, cfg: ImportConfig, invites: set<Id>) {
    && SegmentsApart(cfg.segments) && Importable(p, cfg.contacts, invites)
    && forall i :: 0 <= i < |cfg.campaigns| ==>
         Accepted(cfg.campaigns[i], SegmentNames(cfg.segments), ContactEmails(p, cfg.contacts))
  }

  lemma SegmentsKeepMembers(s: Loaded, t: Loaded, tid: Id)
    requires OnlySegments(s, t) && ContactsMapped(s, tid)
    requires MembersExist(s.db.contactSegments, s.db.contacts, s.db.segments)
    requires TargetsExist(s.db.campaignSegments, s.db.campaigns, s.db.segments)
    ensures MembersExist(t.db.contactSegments, t.db.contacts, t.db.segments)
    ensures TargetsExist(t.db.campaignSegments, t.db.campaigns, t.db.segments)
    ensures ContactsMapped(t, tid) && CampaignsOf(t.db, tid) == CampaignsOf(s.db, tid)
    ensures t.db.contacts == s.db.contacts
  {
  }

  lemma ContactsKeepCampaigns(p: Platform, s: Loaded, t: Loaded, tid: Id)
    requires OnlyContacts(s, t) && ContactsReady(p, t, tid)
    requires TargetsExist(s.db.campaignSegments, s.db.campaigns, s.db.segments)
    requires RecipientsExist(s.db.recipients, s.db.campaigns, s.db.contacts)
    ensures CampaignsReady(p, t, tid) && CampaignsOf(t.db, tid) == CampaignsOf(s.db, tid)
    ensures t.db.segments == s.db.segments && t.segments == s.segments
  {
  }

  lemma CampaignsKeepRest(p: Platform, s: Loaded, t: Loaded, tid: Id, contacts: seq<ContactConfig>, now: Time)
    requires OnlyCampaigns(s, t)
    ensures t.db.segments == s.db.segments && ContactsNow(t, tid) == ContactsNow(s, tid)
    ensures ContactsStored(p, s, tid, contacts, now) ==> ContactsStored(p, t, tid, contacts, now)
  {
    hide ContactsView, ContactRow, ContactOk;
    if ContactsStored(p, s, tid, contacts, now) {
      forall i | 0 <= i < |contacts| && ContactOk(p, contacts[i])
        ensures StoredAs(t, tid, contacts[i], now)
      {
        assert StoredAs(s, tid, contacts[i], now);
      }
    }
  }

  lemma MarketingStage(p: Platform, s: Loaded, tid: Id, cfg: ImportConfig, now: Time) returns (ids: seq<Id>)
    requires NoMarketing(p, s, tid) && OwnInvites(p, cfg)
    ensures
      var loaded := AddSegments(p, s, tid, cfg.segments, now);
      var joined := if loaded.Some? then AddContacts(p, loaded.value, tid, cfg.contacts, now) else None;
      var made := if joined.Some? then AddCampaigns(p, joined.value, tid, cfg.campaigns, now) else None;
      && (made.Some? <==> Marketable(p, cfg, InvitesOf(s.db.contacts)))
      && (made.Some? ==> Marketed(p, made.value, tid, cfg, now, ids))
  {
    hide Fresh, UsersView, ClientsView, SegmentsView, SegmentViews, SegmentNames, ContactViews, ContactEmails, Accepted;
    hide AddSegments, AddContacts, AddCampaigns, Exportable, Made, ContactsView, CampaignsOf, SegmentsApart;
    hide Importable, InvitesOf, GivenInvites, Accounted, OwnInvite, ContactsStored;
    ids := [];
    SegmentsAdded(p, s, tid, cfg.segments, now);
    if AddSegments(p, s, tid, cfg.segments, now).Some? {
      var loaded := AddSegments(p, s, tid, cfg.segments, now).value;
      SegmentsKeepMembers(s, loaded, tid);
      hide MembersExist, TargetsExist, RecipientsExist, SegmentsMapped, ContactsMapped;
      ContactsAdded(p, loaded, tid, cfg.contacts, now);
      if AddContacts(p, loaded, tid, cfg.contacts, now).Some? {
        var joined := AddContacts(p, loaded, tid, cfg.contacts, now).value;
        ContactsKeepCampaigns(p, loaded, joined, tid);
        hide OnlySegments, OnlyContacts, CampaignsReady, ContactsReady;
        ids := CampaignsAdded(p, joined, tid, cfg.campaigns, now);
        if AddCampaigns(p, joined, tid, cfg.campaigns, now).Some? {
          CampaignsKeepRest(p, joined, AddCampaigns(p, joined, tid, cfg.campaigns, now).value, tid, cfg.contacts, now);
        }
      }
    }
  }

  /** When an import of the document is not refused, in tables with these clients and invites. */
  ghost predicate Acceptable(p: Platform, cfg: ImportConfig, start: nat, clients: set<Id>, invites: set<Id>) {
    var users := Merged(p, cfg.admin, cfg.users);
    && UsersOk(p, users) && ClientsOk(p, cfg.clients)
    && ClientIdsFree(p, start + |users|, cfg.clients, clients) && Marketable(p, cfg, invites)
  }

  /**
   * A document is imported if and only if its users and clients pass their checks, no client id is taken or repeated,
   * no segment name is repeated, no proper contact repeats an email or brings a repeated or taken invite, and every
   * campaign is acceptable; and then the tenant's segments, contacts and campaigns are those of the document.
   */
  lemma AllAdded(p: Platform, s: Loaded, tid: Id, cfg: ImportConfig, now: Time) returns (ids: seq<Id>)
    requires Empty(p, s, tid) && OwnInvites(p, cfg)
    ensures
      var added := AddAll(p, s, tid, cfg, now);
      && (added.Some? <==> Acceptable(p, cfg, s.next, s.db.clients.Keys, InvitesOf(s.db.contacts)))
      && (added.Some? ==> Marketed(p, added.value, tid, cfg, now, ids))
  {
    hide AddUsers, AddClients, AddSegments, AddContacts, AddCampaigns, Merged, UsersOk, ClientsOk, Fresh, UsersView;
    hide UserRows, ClientRows, ClientIdsFree, Marketed, Marketable, InvitesOf, OwnInvites, ClientsView;
    ids := [];
    var users := Merged(p, cfg.admin, cfg.users);
    if UsersOk(p, users) && ClientsOk(p, cfg.clients) {
      EmailsDiffer(p, users);
      UsersAdded(p, s, tid, users, now);
      var s1 := AddUsers(p, s, tid, users, now).value;
      ClientsAdded(p, s1, tid, cfg.clients, now);
      if AddClients(p, s1, tid, cfg.clients, now).Some? {
        var s2 := AddClients(p, s1, tid, cfg.clients, now).value;
        PeopleOnly(p, s, s2, tid);
        hide NoMarketing;
        ids := MarketingStage(p, s2, tid, cfg, now);
      }
    }
  }
}

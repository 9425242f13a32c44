/** The migration-mode export of backend/tenant/export_import.go: ids become names and emails, rows become lists. */
module TenantExport {
  import opened Wrappers
  import opened Schema
  import opened StoreOps
  import opened TenantViews
  import opened TenantConfig
  import opened TenantImport
  import opened ImportContacts
  import opened ImportCampaigns

  /** The order in which an export lists the rows; the times it sorts by may tie, so any order is allowed. */
  datatype Listing = Listing(users: seq<Id>, clients: seq<Id>, segments: seq<Id>, contacts: seq<Id>, campaigns: seq<Id>)

  function UserDoc(u: User): UserConfig {
    UserConfig(u.email, "", u.passwordHash, u.name, u.role)
  }

  function ClientDoc(id: Id, c: Client): ClientConfig {
    ClientConfig(id, "", c.secretHash, c.name, c.redirectUris)
  }

  function SegmentDoc(s: Segment): SegmentConfig {
    SegmentConfig(s.name, s.description)
  }

  /** The query behind the contact list does not select the invite token, so none is ever exported. */
  function ContactDoc(c: Contact, names: seq<string>): ContactConfig {
    ContactConfig(c.email, c.name, names, c.consentSource, Some(c.unsubscribed), Some(c.consentAt), Some(c.createdAt),
                  None)
  }

  function RecipientDoc(r: Recipient, email: string): RecipientConfig {
    RecipientConfig(email, r.status, r.errorMessage, r.sentAt, r.openedAt)
  }

  function CampaignDoc(c: Campaign, names: seq<string>, rows: seq<RecipientConfig>): CampaignConfig {
    CampaignConfig(c.subject, c.htmlBody, c.fromName, c.fromEmail, c.attachmentUrl, names, c.status, c.sentAt,
                   Some(c.createdAt), rows)
  }

  /** The names of the owner's segments inside the tenant, each once. */
  ghost predicate ListsNames(segments: map<Id, Segment>, pairs: set<(Id, Id)>, tid: Id, owner: Id, names: seq<string>) {
    && (forall i, j :: 0 <= i < j < |names| ==> names[i] != names[j])
    && (forall n :: n in names <==> Own(n) in Labels(segments, pairs, tid, owner))
  }

  ghost predicate ListsRecipients(db: Tables, campaign: Id, rows: seq<RecipientConfig>) {
    && (forall i, j :: 0 <= i < j < |rows| ==> rows[i].email != rows[j].email)
    && DocRecipients(rows) == Recipients(db.recipients, db.contacts, campaign)
  }

  ghost predicate AdminListed(users: seq<UserConfig>, admin: Option<AdminConfig>) {
    if admin.None? then forall i :: 0 <= i < |users| ==> users[i].role != ADMIN
    else
      && admin.value.password == ""
      && exists i :: 0 <= i < |users| && users[i].role == ADMIN && users[i].email == admin.value.email
  }

  /** The hash and never a password. */
  predicate UserWritten(u: User, doc: UserConfig) {
    && doc.email == u.email && doc.password == "" && doc.passwordHash == u.passwordHash && doc.name == u.name
    && doc.role == u.role
  }

  predicate ClientWritten(id: Id, c: Client, doc: ClientConfig) {
    && doc.clientId == id && doc.secret == "" && doc.secretHash == c.secretHash && doc.name == c.name
    && doc.redirectUris == c.redirectUris
  }

  predicate ContactWritten(c: Contact, doc: ContactConfig) {
    && doc.email == c.email && doc.name == c.name && doc.consentSource == c.consentSource
    && doc.unsubscribed == Some(c.unsubscribed) && doc.consentAt == Some(c.consentAt)
    && doc.createdAt == Some(c.createdAt) && doc.inviteToken == None
  }

  predicate CampaignWritten(c: Campaign, doc: CampaignConfig) {
    && doc.subject == c.subject && doc.htmlBody == c.htmlBody && doc.fromName == c.fromName
    && doc.fromEmail == c.fromEmail && doc.attachmentUrl == c.attachmentUrl && doc.status == c.status
    && doc.sentAt == c.sentAt && doc.createdAt == Some(c.createdAt)
  }

  ghost predicate UsersListed(db: Tables, tid: Id, users: seq<UserConfig>, ids: seq<Id>) {
    && Enumerates(ids, Scoped(db.users, tid)) && |users| == |ids|
    && forall i :: 0 <= i < |ids| ==> ids[i] in db.users && UserWritten(db.users[ids[i]], users[i])
  }

  function ClientsOf(db: Tables, tid: Id): set<Id> {
    set c | c in db.clients && db.clients[c].tenantId == tid
  }

  ghost predicate ClientsListed(db: Tables, tid: Id, clients: seq<ClientConfig>, ids: seq<Id>) {
    && Enumerates(ids, ClientsOf(db, tid)) && |clients| == |ids|
    && forall i :: 0 <= i < |ids| ==> ids[i] in db.clients && ClientWritten(ids[i], db.clients[ids[i]], clients[i])
  }

  ghost predicate SegmentsListed(db: Tables, tid: Id, segments: seq<SegmentConfig>, ids: seq<Id>) {
    && Enumerates(ids, SegmentsOf(db, tid)) && |segments| == |ids|
    && forall i :: 0 <= i < |ids| ==>
         && ids[i] in db.segments
         && segments[i] == SegmentConfig(db.segments[ids[i]].name, db.segments[ids[i]].description)
  }

  ghost predicate ContactListed(db: Tables, tid: Id, c: Id, doc: ContactConfig) {
    && c in db.contacts && ContactWritten(db.contacts[c], doc)
    && ListsNames(db.segments, db.contactSegments, tid, c, doc.segments)
  }

  ghost predicate ContactsListed(db: Tables, tid: Id, contacts: seq<ContactConfig>, ids: seq<Id>) {
    && Enumerates(ids, ContactsOf(db, tid)) && |contacts| == |ids|
    && forall i :: 0 <= i < |ids| ==> ContactListed(db, tid, ids[i], contacts[i])
  }

  ghost predicate CampaignListed(db: Tables, tid: Id, c: Id, doc: CampaignConfig) {
    && c in db.campaigns && CampaignWritten(db.campaigns[c], doc)
    && ListsNames(db.segments, db.campaignSegments, tid, c, doc.segments)
    && ListsRecipients(db, c, doc.recipients)
  }

  ghost predicate CampaignsListed(db: Tables, tid: Id, campaigns: seq<CampaignConfig>, ids: seq<Id>) {
    && Enumerates(ids, CampaignsOf(db, tid)) && |campaigns| == |ids|
    && forall i :: 0 <= i < |ids| ==> CampaignListed(db, tid, ids[i], campaigns[i])
  }

  /** The document an export in migration mode returns. */
  ghost predicate Exported(db: Tables, tid: Id, cfg: ImportConfig, ids: Listing) {
    && tid in db.tenants
    && cfg.slug == db.tenants[tid].slug && cfg.name == db.tenants[tid].name
    && cfg.registrationEnabled == db.tenants[tid].registrationEnabled
    && cfg.smtp == (if db.tenants[tid].smtp.host != "" then Some(db.tenants[tid].smtp) else None)
    && AdminListed(cfg.users, cfg.admin)
    && UsersListed(db, tid, cfg.users, ids.users)
    && ClientsListed(db, tid, cfg.clients, ids.clients)
    && SegmentsListed(db, tid, cfg.segments, ids.segments)
    && ContactsListed(db, tid, cfg.contacts, ids.contacts)
    && CampaignsListed(db, tid, cfg.campaigns, ids.campaigns)
  }

  // --- The loops ---

  /** Taking one more id out of the set keeps the list an enumeration of what was taken. */
  lemma EnumeratedOne(ids: seq<Id>, rows: set<Id>, id: Id)
    requires Enumerates(ids, rows) && id !in rows
    ensures Enumerates(ids + [id], rows + {id})
  {
  }

  method ExportUsers(db: Tables, tid: Id) returns (users: seq<UserConfig>, admin: Option<AdminConfig>,
                     ghost ids: seq<Id>)
    ensures UsersListed(db, tid, users, ids) && AdminListed(users, admin)
  {
    users, admin, ids := [], None, [];
    var pending := Scoped(db.users, tid);
    while pending != {}
      invariant pending <= Scoped(db.users, tid) && Enumerates(ids, Scoped(db.users, tid) - pending)
      invariant |users| == |ids|
      invariant forall i :: 0 <= i < |ids| ==> ids[i] in db.users && users[i] == UserDoc(db.users[ids[i]])
      invariant AdminListed(users, admin)
    {
      var u :| u in pending;
      EnumeratedOne(ids, Scoped(db.users, tid) - pending, u);
      assert Scoped(db.users, tid) - pending + {u} == Scoped(db.users, tid) - (pending - {u});
      ghost var before := users;
      users := users + [UserDoc(db.users[u])];
      assert forall i :: 0 <= i < |before| ==> users[i] == before[i];
      assert users[|before|].role == db.users[u].role && users[|before|].email == db.users[u].email;
      if db.users[u].role == ADMIN && admin.None? {
        admin := Some(AdminConfig(db.users[u].email, ""));
      }
      ids, pending := ids + [u], pending - {u};
    }
  }

  method ExportClients(db: Tables, tid: Id) returns (clients: seq<ClientConfig>, ghost ids: seq<Id>)
    ensures ClientsListed(db, tid, clients, ids)
  {
    clients, ids := [], [];
    var pending := ClientsOf(db, tid);
    while pending != {}
      invariant pending <= ClientsOf(db, tid) && Enumerates(ids, ClientsOf(db, tid) - pending)
      invariant |clients| == |ids|
      invariant forall i :: 0 <= i < |ids| ==>
        ids[i] in db.clients && clients[i] == ClientDoc(ids[i], db.clients[ids[i]])
    {
      var c :| c in pending;
      EnumeratedOne(ids, ClientsOf(db, tid) - pending, c);
      assert ClientsOf(db, tid) - pending + {c} == ClientsOf(db, tid) - (pending - {c});
      clients, ids, pending := clients + [ClientDoc(c, db.clients[c])], ids + [c], pending - {c};
    }
  }

  method ExportSegments(db: Tables, tid: Id)
    returns (segments: seq<SegmentConfig>, segNameById: map<Id, string>, ghost ids: seq<Id>)
    ensures SegmentsListed(db, tid, segments, ids)
    ensures segNameById == map s | s in SegmentsOf(db, tid) :: db.segments[s].name
  {
    segments, segNameById, ids := [], map[], [];
    var pending := SegmentsOf(db, tid);
    while pending != {}
      invariant pending <= SegmentsOf(db, tid) && Enumerates(ids, SegmentsOf(db, tid) - pending)
      invariant |segments| == |ids|
      invariant forall i :: 0 <= i < |ids| ==> ids[i] in db.segments && segments[i] == SegmentDoc(db.segments[ids[i]])
      invariant segNameById == map s | s in SegmentsOf(db, tid) - pending :: db.segments[s].name
    {
      var s :| s in pending;
      EnumeratedOne(ids, SegmentsOf(db, tid) - pending, s);
      assert SegmentsOf(db, tid) - pending + {s} == SegmentsOf(db, tid) - (pending - {s});
      segments, segNameById, ids := segments + [SegmentDoc(db.segments[s])], segNameById[s := db.segments[s].name],
        ids + [s];
      pending := pending - {s};
    }
  }

  /** Names the owner's segments through the map; a segment of another tenant is not in it and is dropped. */
  method ExportNames(db: Tables, pairs: set<(Id, Id)>, tid: Id, owner: Id, segNameById: map<Id, string>)
    returns (names: seq<string>)
    requires UniqueSegments(db.segments) && segNameById == map s | s in SegmentsOf(db, tid) :: db.segments[s].name
    ensures ListsNames(db.segments, pairs, tid, owner, names)
  {
    names := [];
    var all := set q | q in pairs && q.0 == owner;
    var pending := all;
    while pending != {}
      invariant pending <= all
      invariant forall i, j :: 0 <= i < j < |names| ==> names[i] != names[j]
      invariant forall n :: n in names <==>
        exists q :: q in all - pending && q.1 in segNameById && segNameById[q.1] == n
    {
      var q :| q in pending;
      if q.1 in segNameById {
        assert forall o :: o in all - pending && o.1 in segNameById ==> segNameById[o.1] != segNameById[q.1];
        assert segNameById[q.1] !in names;
        names := names + [segNameById[q.1]];
      }
      assert all - (pending - {q}) == all - pending + {q};
      pending := pending - {q};
    }
    forall n
      ensures n in names <==> Own(n) in Labels(db.segments, pairs, tid, owner)
    {
      if Own(n) in Labels(db.segments, pairs, tid, owner) {
        var q :| q in pairs && q.0 == owner && LabelOf(db.segments, tid, q.1) == Own(n);
        assert q in all - pending && segNameById[q.1] == n;
      }
      if n in names {
        var q :| q in all - pending && q.1 in segNameById && segNameById[q.1] == n;
        assert LabelOf(db.segments, tid, q.1) == Own(n);
      }
    }
  }

  /** Two recipients of one campaign are contacts of one tenant, so their emails differ. */
  lemma EmailsDiffer(db: Tables, r: Id, q: Id)
    requires Sound(db) && r in db.recipients && q in db.recipients && r != q
    requires db.recipients[r].campaignId == db.recipients[q].campaignId
    ensures db.contacts[db.recipients[r].contactId].email != db.contacts[db.recipients[q].contactId].email
  {
    var c, d := db.recipients[r].contactId, db.recipients[q].contactId;
    assert !SamePair(db.recipients[r], db.recipients[q]);
    assert c != d && db.contacts[c].tenantId == db.contacts[d].tenantId;
    assert !Clash(db.contacts[c], db.contacts[d]);
  }

  method ExportRecipients(db: Tables, campaign: Id) returns (rows: seq<RecipientConfig>)
    requires Sound(db)
    ensures ListsRecipients(db, campaign, rows)
  {
    hide Sound;
    assert RecipientsExist(db.recipients, db.campaigns, db.contacts) by { RowsExist(db); }
    rows := [];
    ghost var ids: seq<Id> := [];
    var all := set r | r in db.recipients && db.recipients[r].campaignId == campaign;
    var pending := all;
    while pending != {}
      invariant pending <= all && Enumerates(ids, all - pending) && |rows| == |ids|
      invariant forall i :: 0 <= i < |ids| ==> RecipientListed(db, campaign, ids[i], rows[i])
    {
      var r :| r in pending;
      EnumeratedOne(ids, all - pending, r);
      assert all - pending + {r} == all - (pending - {r});
      rows := rows + [RecipientDoc(db.recipients[r], db.contacts[db.recipients[r].contactId].email)];
      ids, pending := ids + [r], pending - {r};
    }
    assert all - pending == all;
    RecipientsListed(db, campaign, rows, ids, all);
  }

  lemma RowsExist(db: Tables)
    requires Sound(db)
    ensures RecipientsExist(db.recipients, db.campaigns, db.contacts)
  {
  }

  ghost predicate RecipientListed(db: Tables, campaign: Id, r: Id, doc: RecipientConfig) {
    && r in db.recipients && db.recipients[r].campaignId == campaign && db.recipients[r].contactId in db.contacts
    && doc == RecipientDoc(db.recipients[r], db.contacts[db.recipients[r].contactId].email)
  }

  lemma RecipientsListed(db: Tables, campaign: Id, rows: seq<RecipientConfig>, ids: seq<Id>, all: set<Id>)
    requires Sound(db) && Enumerates(ids, all) && |rows| == |ids|
    requires all == set r | r in db.recipients && db.recipients[r].campaignId == campaign
    requires forall i :: 0 <= i < |ids| ==> RecipientListed(db, campaign, ids[i], rows[i])
    ensures ListsRecipients(db, campaign, rows)
  {
    forall i, j | 0 <= i < j < |rows|
      ensures rows[i].email != rows[j].email
    {
      assert RecipientListed(db, campaign, ids[i], rows[i]) && RecipientListed(db, campaign, ids[j], rows[j]);
      EmailsDiffer(db, ids[i], ids[j]);
    }
    hide Sound;
    forall v | v in Recipients(db.recipients, db.contacts, campaign)
      ensures v in DocRecipients(rows)
    {
      var r :| r in db.recipients && db.recipients[r].campaignId == campaign
        && db.recipients[r].contactId in db.contacts
        && ViewRecipient(db.recipients[r], db.contacts[db.recipients[r].contactId].email) == v;
      assert r in all;
      var i :| 0 <= i < |ids| && ids[i] == r;
      assert RecipientListed(db, campaign, ids[i], rows[i]);
      assert rows[i] in rows && DocRecipient(rows[i]) == v;
    }
    forall v | v in DocRecipients(rows)
      ensures v in Recipients(db.recipients, db.contacts, campaign)
    {
      var i :| 0 <= i < |rows| && DocRecipient(rows[i]) == v;
      assert RecipientListed(db, campaign, ids[i], rows[i]);
    }
  }

  method ExportContacts(db: Tables, tid: Id, segNameById: map<Id, string>)
    returns (contacts: seq<ContactConfig>, ghost ids: seq<Id>)
    requires UniqueSegments(db.segments) && segNameById == map s | s in SegmentsOf(db, tid) :: db.segments[s].name
    ensures ContactsListed(db, tid, contacts, ids)
  {
    hide ListsNames, UniqueSegments;
    contacts, ids := [], [];
    var pending := ContactsOf(db, tid);
    while pending != {}
      invariant pending <= ContactsOf(db, tid) && Enumerates(ids, ContactsOf(db, tid) - pending)
      invariant |contacts| == |ids|
      invariant forall i :: 0 <= i < |ids| ==> ContactListed(db, tid, ids[i], contacts[i])
    {
      var c :| c in pending;
      EnumeratedOne(ids, ContactsOf(db, tid) - pending, c);
      assert ContactsOf(db, tid) - pending + {c} == ContactsOf(db, tid) - (pending - {c});
      var names := ExportNames(db, db.contactSegments, tid, c, segNameById);
      contacts, ids, pending := contacts + [ContactDoc(db.contacts[c], names)], ids + [c], pending - {c};
    }
  }

  method ExportCampaigns(db: Tables, tid: Id, segNameById: map<Id, string>)
    returns (campaigns: seq<CampaignConfig>, ghost ids: seq<Id>)
    requires Sound(db) && segNameById == map s | s in SegmentsOf(db, tid) :: db.segments[s].name
    ensures CampaignsListed(db, tid, campaigns, ids)
  {
    assert UniqueSegments(db.segments);
    hide ListsNames, ListsRecipients, UniqueSegments, Sound;
    campaigns, ids := [], [];
    var pending := CampaignsOf(db, tid);
    while pending != {}
      invariant pending <= CampaignsOf(db, tid) && Enumerates(ids, CampaignsOf(db, tid) - pending)
      invariant |campaigns| == |ids|
      invariant forall i :: 0 <= i < |ids| ==> CampaignListed(db, tid, ids[i], campaigns[i])
    {
      var c :| c in pending;
      EnumeratedOne(ids, CampaignsOf(db, tid) - pending, c);
      assert CampaignsOf(db, tid) - pending + {c} == CampaignsOf(db, tid) - (pending - {c});
      var rows := ExportRecipients(db, c);
      var names := ExportNames(db, db.campaignSegments, tid, c, segNameById);
      campaigns, ids, pending := campaigns + [CampaignDoc(db.campaigns[c], names, rows)], ids + [c], pending - {c};
    }
  }

  /** handleExport with mode=migration, for an administrator; None when there is no such tenant. */
  method Export(db: Database, tid: Id) returns (cfg: Option<ImportConfig>, ghost ids: Listing)
    requires Sound(db.tables)
    ensures cfg.None? <==> tid !in db.tables.tenants
    ensures cfg.Some? ==> Exported(db.tables, tid, cfg.value, ids)
  {
    ids := Listing([], [], [], [], []);
    if tid !in db.tables.tenants {
      return None, ids;
    }
    assert UniqueSegments(db.tables.segments);
    hide Sound, UsersListed, ClientsListed, SegmentsListed, ContactsListed, CampaignsListed, AdminListed;
    hide UniqueSegments;
    var tn := db.tables.tenants[tid];
    var smtp := if tn.smtp.host != "" then Some(tn.smtp) else None;
    var users, admin, userIds := ExportUsers(db.tables, tid);
    var clients, clientIds := ExportClients(db.tables, tid);
    var segments, segNameById, segmentIds := ExportSegments(db.tables, tid);
    var contacts, contactIds := ExportContacts(db.tables, tid, segNameById);
    var campaigns, campaignIds := ExportCampaigns(db.tables, tid, segNameById);
    ids := Listing(userIds, clientIds, segmentIds, contactIds, campaignIds);
    return Some(ImportConfig(tn.slug, tn.name, tn.registrationEnabled, smtp, admin, users, clients, segments, contacts,
                             campaigns)), ids;
  }
}

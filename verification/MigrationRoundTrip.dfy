/**
 * Export, delete, import: the tenant that comes back is the one that left, exactly when the tenant is portable. Being
 * portable is a matter of its rows alone and can be checked beforehand.
 */
module MigrationRoundTrip {
  import opened Wrappers
  import opened Schema
  import opened StoreOps
  import opened TenantStore
  import opened TenantViews
  import opened TenantConfig
  import opened TenantImport
  import opened ImportPeople
  import opened ImportContacts
  import opened ImportCampaigns
  import opened ImportMeaning
  import opened TenantExport
  import opened TenantImporter
  import ImportSound

  // --- When a tenant is portable ---

  predicate OwnOnly(labels: set<Label>) {
    forall l :: l in labels ==> l.Own?
  }

  predicate UserViewOk(p: Platform, v: UserView) {
    p.validEmail(v.email) && v.passwordHash != "" && NameOk(v.name) && (v.role == ADMIN || v.role == MEMBER)
  }

  predicate ContactViewOk(p: Platform, v: ContactView) {
    p.validEmail(v.email) && NameOk(v.name) && OwnOnly(v.segments)
  }

  predicate CampaignViewOk(v: CampaignView) {
    v.attachmentUrl == "" && StatusOk(v.status) && v.status != "" && OwnOnly(v.segments)
  }

  const NO_SMTP := Smtp("", "", "", "", "", "", 0)

  ghost predicate UsersPortable(p: Platform, users: set<UserView>) {
    && (forall v :: v in users ==> UserViewOk(p, v))
    && (forall v, w :: v in users && w in users && p.lower(v.email) == p.lower(w.email) ==> v == w)
  }

  ghost predicate PeoplePortable(p: Platform, db: Tables, tid: Id) {
    && UsersPortable(p, UsersView(db.users, tid))
    && (forall v :: v in ClientsView(db.clients, tid) ==> ClientViewOk(p, v))
    && (forall v :: v in ContactsView(db.contacts, db.segments, db.contactSegments, tid) ==> ContactViewOk(p, v))
  }

  ghost predicate CampaignsPortable(db: Tables, tid: Id) {
    forall c :: c in CampaignsOf(db, tid) ==> CampaignViewOk(CampaignAt(db, tid, c))
  }

  ghost predicate ProfilePortable(p: Platform, t: Profile) {
    p.validSlug(t.slug) && (t.smtp.host != "" || t.smtp == NO_SMTP)
  }

  ghost predicate Portable(p: Platform, db: Tables, tid: Id)
    requires tid in db.tenants
  {
    ProfilePortable(p, ProfileOf(db.tenants[tid])) && PeoplePortable(p, db, tid) && CampaignsPortable(db, tid)
  }

  // --- What an import of an exported document does ---

  /** The form every exported document has. */
  ghost predicate Document(cfg: ImportConfig) {
    && (forall i, j :: 0 <= i < j < |cfg.clients| ==> cfg.clients[i].clientId != cfg.clients[j].clientId)
    && (forall i, j :: 0 <= i < j < |cfg.segments| ==> cfg.segments[i].name != cfg.segments[j].name)
    && (forall i :: 0 <= i < |cfg.contacts| ==> Complete(cfg.contacts[i]))
    && (forall i, j :: 0 <= i < j < |cfg.contacts| ==> cfg.contacts[i].email != cfg.contacts[j].email)
    && (forall i :: 0 <= i < |cfg.campaigns| ==> Exportable(cfg.campaigns[i]))
  }

  /** The tenant as the document describes it. */
  ghost predicate Described(p: Platform, t: Loaded, tid: Id, cfg: ImportConfig, now: Time, ids: seq<Id>) {
    && UsersOk(p, Merged(p, cfg.admin, cfg.users))
    && UsersView(t.db.users, tid) == EntryUsers(p, Merged(p, cfg.admin, cfg.users))
    && (forall v :: v in ClientsView(t.db.clients, tid) ==> ClientViewOk(p, v))
    && Marketed(p, t, tid, cfg, now, ids)
    && (forall i :: 0 <= i < |cfg.campaigns| ==>
          Accepted(cfg.campaigns[i], SegmentNames(cfg.segments), ContactEmails(p, cfg.contacts)))
  }

  /** Entries that bring no invite and repeat no email or name are never refused for that. */
  lemma DocumentIsImportable(p: Platform, cfg: ImportConfig, taken: set<Id>)
    requires Document(cfg)
    ensures OwnInvites(p, cfg) && SegmentsApart(cfg.segments) && Importable(p, cfg.contacts, taken)
  {
    hide ContactOk, Exportable;
  }

  lemma KeptIdsAreFree(p: Platform, start: nat, clients: seq<ClientConfig>, taken: set<Id>)
    requires forall i, j :: 0 <= i < j < |clients| ==> clients[i].clientId != clients[j].clientId
    requires forall i :: 0 <= i < |clients| ==> ClientKept(clients[i], taken)
    ensures ClientIdsFree(p, start, clients, taken)
  {
  }

  /**
   * The import of a document of the exported form succeeds only if the checks of its users, clients and campaigns pass,
   * and then the tenant is as the document describes it. If the clients also keep their ids, that is enough to succeed.
   */
  lemma DocumentAdded(p: Platform, s: Loaded, tid: Id, cfg: ImportConfig, now: Time) returns (ids: seq<Id>)
    requires Document(cfg) && Empty(p, s, tid) && Proper(p)
    ensures
      var added := AddAll(p, s, tid, cfg, now);
      && (added.Some? ==> added.value.db.tenants == s.db.tenants && Described(p, added.value, tid, cfg, now, ids))
      && (&& UsersOk(p, Merged(p, cfg.admin, cfg.users)) && ClientsOk(p, cfg.clients)
          && (forall i :: 0 <= i < |cfg.clients| ==> ClientKept(cfg.clients[i], s.db.clients.Keys))
          && (forall i :: 0 <= i < |cfg.campaigns| ==>
              Accepted(cfg.campaigns[i], SegmentNames(cfg.segments), ContactEmails(p, cfg.contacts)))
          ==> added.Some? && ClientsView(added.value.db.clients, tid) == ClientViews(cfg.clients))
  {
    hide AddAll, Acceptable, Document, Empty, Proper, UsersOk, ClientsOk, ClientKept, UsersView, ClientsView;
    hide ClientViews;
    hide Marketed, Accepted, EntryUsers, ClientViewOk, Merged, InvitesOf;
    DocumentAcceptable(p, cfg, s.next, s.db.clients.Keys, InvitesOf(s.db.contacts));
    ids := AllAdded(p, s, tid, cfg, now);
    if AddAll(p, s, tid, cfg, now).Some? {
      PeopleSeen(p, s, tid, cfg, now);
    }
  }

  /** When the checks pass, and when nothing else can be refused. */
  lemma DocumentAcceptable(p: Platform, cfg: ImportConfig, start: nat, clients: set<Id>, invites: set<Id>)
    requires Document(cfg)
    ensures OwnInvites(p, cfg)
    ensures Acceptable(p, cfg, start, clients, invites) ==>
      forall i :: 0 <= i < |cfg.campaigns| ==>
        Accepted(cfg.campaigns[i], SegmentNames(cfg.segments), ContactEmails(p, cfg.contacts))
    ensures
      && UsersOk(p, Merged(p, cfg.admin, cfg.users)) && ClientsOk(p, cfg.clients)
      && (forall i :: 0 <= i < |cfg.clients| ==> ClientKept(cfg.clients[i], clients))
      && (forall i :: 0 <= i < |cfg.campaigns| ==>
            Accepted(cfg.campaigns[i], SegmentNames(cfg.segments), ContactEmails(p, cfg.contacts)))
      ==> Acceptable(p, cfg, start, clients, invites)
  {
    DocumentIsImportable(p, cfg, invites);
    hide UsersOk, ClientsOk, ClientIdsFree, ClientKept, Importable, SegmentsApart, OwnInvites, Accepted, SegmentNames;
    hide ContactEmails, Merged, Complete, Exportable;
    if forall i :: 0 <= i < |cfg.clients| ==> ClientKept(cfg.clients[i], clients) {
      KeptIdsAreFree(p, start + |Merged(p, cfg.admin, cfg.users)|, cfg.clients, clients);
    }
  }

  /** The users and clients that a finished import has added to an empty tenant. */
  lemma PeopleSeen(p: Platform, s: Loaded, tid: Id, cfg: ImportConfig, now: Time)
    requires Empty(p, s, tid) && Proper(p) && AddAll(p, s, tid, cfg, now).Some?
    ensures
      var t := AddAll(p, s, tid, cfg, now).value;
      && t.db.tenants == s.db.tenants && UsersOk(p, Merged(p, cfg.admin, cfg.users))
      && UsersView(t.db.users, tid) == EntryUsers(p, Merged(p, cfg.admin, cfg.users))
      && (forall v :: v in ClientsView(t.db.clients, tid) ==> ClientViewOk(p, v))
      && ((forall i :: 0 <= i < |cfg.clients| ==> ClientKept(cfg.clients[i], s.db.clients.Keys)) ==>
            ClientsView(t.db.clients, tid) == ClientViews(cfg.clients))
  {
    hide AddAll, Merged, UsersOk, ClientsOk, ClientKept, UsersView, ClientsView, ClientViews, EntryUsers, ClientViewOk;
    hide NoMarketing, Fresh, UserRows, ClientRows, Proper;
    var users, t := Merged(p, cfg.admin, cfg.users), AddAll(p, s, tid, cfg, now).value;
    IsFresh(p, s, tid);
    PeopleAdded(p, s, tid, cfg, now);
    SameTenants(s.db, t.db);
    UsersSeen(p, s.db.users, t.db.users, s.next, tid, users, now);
    ClientsSeen(p, s.db.clients, t.db.clients, s.next + |users|, tid, cfg.clients, now);
  }

  lemma SameTenants(db: Tables, after: Tables)
    requires Grows(db.(users := after.users, clients := after.clients), after)
    ensures after.tenants == db.tenants
  {
  }

  lemma IsFresh(p: Platform, s: Loaded, tid: Id)
    requires NoMarketing(p, s, tid)
    ensures Fresh(p, s.next, s.db)
  {
  }

  // --- What an export says about the tenant ---

  lemma ExportedForm(db: Tables, tid: Id, cfg: ImportConfig, ids: Listing)
    requires Sound(db) && Exported(db, tid, cfg, ids)
    ensures Document(cfg)
  {
    assert UniqueSegments(db.segments) && UniqueContacts(db.contacts);
    hide Sound, UniqueContacts;
    forall i, j | 0 <= i < j < |cfg.contacts|
      ensures cfg.contacts[i].email != cfg.contacts[j].email
    {
      assert ContactListed(db, tid, ids.contacts[i], cfg.contacts[i])
          && ContactListed(db, tid, ids.contacts[j], cfg.contacts[j]);
      ContactEmailsDiffer(db, tid, ids.contacts[i], ids.contacts[j]);
    }
    forall i | 0 <= i < |cfg.contacts|
      ensures Complete(cfg.contacts[i])
    {
      assert ContactListed(db, tid, ids.contacts[i], cfg.contacts[i]);
    }
    forall i | 0 <= i < |cfg.campaigns|
      ensures Exportable(cfg.campaigns[i])
    {
      assert CampaignListed(db, tid, ids.campaigns[i], cfg.campaigns[i]);
    }
    hide ContactsListed, CampaignsListed, UsersListed;
  }

  lemma ContactEmailsDiffer(db: Tables, tid: Id, c: Id, d: Id)
    requires UniqueContacts(db.contacts) && c in ContactsOf(db, tid) && d in ContactsOf(db, tid) && c != d
    ensures db.contacts[c].email != db.contacts[d].email
  {
    assert !Clash(db.contacts[c], db.contacts[d]);
  }

  function DocUser(u: UserConfig): UserView {
    UserView(u.email, u.passwordHash, u.name, u.role)
  }

  function DocUsers(users: seq<UserConfig>): set<UserView> {
    set u | u in users :: DocUser(u)
  }

  lemma UsersDocumented(db: Tables, tid: Id, users: seq<UserConfig>, ids: seq<Id>)
    requires UsersListed(db, tid, users, ids)
    ensures DocUsers(users) == UsersView(db.users, tid)
  {
    forall v | v in UsersView(db.users, tid)
      ensures v in DocUsers(users)
    {
      var u :| u in db.users && db.users[u].tenantId == tid && ViewUser(db.users[u]) == v;
      assert u in Scoped(db.users, tid);
      var i :| 0 <= i < |ids| && ids[i] == u;
      assert users[i] in users && DocUser(users[i]) == v;
    }
    forall v | v in DocUsers(users)
      ensures v in UsersView(db.users, tid)
    {
      var i :| 0 <= i < |users| && DocUser(users[i]) == v;
      assert ids[i] in Scoped(db.users, tid) && ViewUser(db.users[ids[i]]) == v;
    }
  }

  lemma ClientsDocumented(db: Tables, tid: Id, clients: seq<ClientConfig>, ids: seq<Id>)
    requires ClientsListed(db, tid, clients, ids)
    ensures ClientViews(clients) == ClientsView(db.clients, tid)
  {
    forall v | v in ClientsView(db.clients, tid)
      ensures v in ClientViews(clients)
    {
      var c :| c in db.clients && db.clients[c].tenantId == tid && ViewClient(c, db.clients[c]) == v;
      assert c in ClientsOf(db, tid);
      var i :| 0 <= i < |ids| && ids[i] == c;
      assert clients[i] in clients;
    }
    forall v | v in ClientViews(clients)
      ensures v in ClientsView(db.clients, tid)
    {
      var i :| 0 <= i < |clients|
        && ClientView(clients[i].clientId, clients[i].secretHash, clients[i].name, clients[i].redirectUris) == v;
      assert ids[i] in ClientsOf(db, tid) && ViewClient(ids[i], db.clients[ids[i]]) == v;
    }
  }

  lemma SegmentsDocumented(db: Tables, tid: Id, segments: seq<SegmentConfig>, ids: seq<Id>)
    requires SegmentsListed(db, tid, segments, ids)
    ensures SegmentViews(segments) == SegmentsView(db.segments, tid)
    ensures forall s :: s in SegmentsOf(db, tid) ==> db.segments[s].name in SegmentNames(segments)
  {
    forall v | v in SegmentsView(db.segments, tid)
      ensures v in SegmentViews(segments)
    {
      var s :| s in db.segments && db.segments[s].tenantId == tid && ViewSegment(db.segments[s]) == v;
      assert s in SegmentsOf(db, tid);
      var i :| 0 <= i < |ids| && ids[i] == s;
      assert segments[i] in segments;
    }
    forall v | v in SegmentViews(segments)
      ensures v in SegmentsView(db.segments, tid)
    {
      var i :| 0 <= i < |segments| && SegmentView(segments[i].name, segments[i].description) == v;
      assert ids[i] in SegmentsOf(db, tid) && ViewSegment(db.segments[ids[i]]) == v;
    }
    forall s | s in SegmentsOf(db, tid)
      ensures db.segments[s].name in SegmentNames(segments)
    {
      var i :| 0 <= i < |ids| && ids[i] == s;
      assert segments[i] in segments;
    }
  }

  /** When no label is foreign, the exported names are the labels. */
  lemma LabelsDocumented(db: Tables, pairs: set<(Id, Id)>, tid: Id, owner: Id, names: seq<string>, known: set<string>)
    requires ListsNames(db.segments, pairs, tid, owner, names) && OwnOnly(Labels(db.segments, pairs, tid, owner))
    requires forall s :: s in SegmentsOf(db, tid) ==> db.segments[s].name in known
    ensures DocLabels(names, known) == Labels(db.segments, pairs, tid, owner)
  {
    var labels := Labels(db.segments, pairs, tid, owner);
    forall l | l in labels
      ensures l in DocLabels(names, known)
    {
      var q :| q in pairs && q.0 == owner && LabelOf(db.segments, tid, q.1) == l;
      assert q.1 in SegmentsOf(db, tid);
      assert l == Own(l.name) && l.name in names;
    }
  }

  lemma ContactDocumented(p: Platform, db: Tables, tid: Id, c: Id, doc: ContactConfig, known: set<string>, now: Time)
    requires ContactListed(db, tid, c, doc)
    requires ContactViewOk(p, ViewContact(db.contacts[c], Labels(db.segments, db.contactSegments, tid, c)))
    requires forall s :: s in SegmentsOf(db, tid) ==> db.segments[s].name in known
    ensures DocContact(doc, known, now) == ViewContact(db.contacts[c], Labels(db.segments, db.contactSegments, tid, c))
    ensures ContactOk(p, doc)
  {
    LabelsDocumented(db, db.contactSegments, tid, c, doc.segments, known);
    hide Labels, DocLabels, ListsNames;
  }

  lemma ContactsDocumented(p: Platform, db: Tables, tid: Id, contacts: seq<ContactConfig>, ids: seq<Id>,
                           known: set<string>,
                           now: Time)
    requires ContactsListed(db, tid, contacts, ids)
    requires forall v :: v in ContactsView(db.contacts, db.segments, db.contactSegments, tid) ==> ContactViewOk(p, v)
    requires forall s :: s in SegmentsOf(db, tid) ==> db.segments[s].name in known
    ensures ContactViews(p, contacts, known, now) == ContactsView(db.contacts, db.segments, db.contactSegments, tid)
    ensures forall c :: c in ContactsOf(db, tid) ==> db.contacts[c].email in ContactEmails(p, contacts)
  {
    hide Labels, ViewContact, DocContact, ContactOk, ContactViewOk;
    forall i | 0 <= i < |ids|
      ensures ids[i] in db.contacts && db.contacts[ids[i]].tenantId == tid && ContactOk(p, contacts[i])
      ensures contacts[i].email == db.contacts[ids[i]].email
      ensures DocContact(contacts[i], known, now)
           == ViewContact(db.contacts[ids[i]], Labels(db.segments, db.contactSegments, tid, ids[i]))
    {
      assert ids[i] in ContactsOf(db, tid) && ContactListed(db, tid, ids[i], contacts[i]);
      ContactDocumented(p, db, tid, ids[i], contacts[i], known, now);
    }
    forall c | c in ContactsOf(db, tid)
      ensures ViewContact(db.contacts[c], Labels(db.segments, db.contactSegments, tid, c))
        in ContactViews(p, contacts, known, now)
      ensures db.contacts[c].email in ContactEmails(p, contacts)
    {
      var i :| 0 <= i < |ids| && ids[i] == c;
      assert contacts[i] in contacts;
    }
    forall v | v in ContactViews(p, contacts, known, now)
      ensures v in ContactsView(db.contacts, db.segments, db.contactSegments, tid)
    {
      var i :| 0 <= i < |contacts| && DocContact(contacts[i], known, now) == v;
      assert ids[i] in db.contacts;
    }
  }

  lemma CampaignDocumented(db: Tables, tid: Id, c: Id, doc: CampaignConfig, known: set<string>, now: Time)
    requires CampaignListed(db, tid, c, doc) && CampaignViewOk(CampaignAt(db, tid, c))
    requires forall s :: s in SegmentsOf(db, tid) ==> db.segments[s].name in known
    ensures DocCampaign(doc, known, now) == CampaignAt(db, tid, c) && StatusOk(doc.status)
    ensures Exportable(doc)
  {
    LabelsDocumented(db, db.campaignSegments, tid, c, doc.segments, known);
    hide Labels, DocLabels, ListsNames, DocRecipients, Recipients, FirstRecipients, Accepted;
    ExportableIs(doc, known, {});
  }

  /** The recipients of a campaign are contacts of its tenant. */
  lemma RecipientsKnown(p: Platform, db: Tables, tid: Id, c: Id, doc: CampaignConfig, emails: set<string>)
    requires Sound(db) && CampaignListed(db, tid, c, doc) && c in CampaignsOf(db, tid)
    requires forall k :: k in ContactsOf(db, tid) ==> db.contacts[k].email in emails
    ensures forall i :: 0 <= i < |doc.recipients| ==> doc.recipients[i].email in emails
  {
    forall i | 0 <= i < |doc.recipients|
      ensures doc.recipients[i].email in emails
    {
      assert doc.recipients[i] in doc.recipients && DocRecipient(doc.recipients[i]) in DocRecipients(doc.recipients);
      var r :| r in db.recipients && db.recipients[r].campaignId == c && db.recipients[r].contactId in db.contacts
        && ViewRecipient(db.recipients[r], db.contacts[db.recipients[r].contactId].email)
           == DocRecipient(doc.recipients[i]);
      assert db.recipients[r].contactId in ContactsOf(db, tid);
    }
  }

  // --- The round trip ---

  /** The admin entry of an export names a user the list already has as an admin. */
  lemma MergeIsIdle(p: Platform, cfg: ImportConfig)
    requires AdminListed(cfg.users, cfg.admin) && UsersOk(p, cfg.users)
    ensures Merged(p, cfg.admin, cfg.users) == cfg.users
  {
    if cfg.admin.Some? && cfg.admin.value.email != "" {
      var i :| 0 <= i < |cfg.users| && cfg.users[i].role == ADMIN && cfg.users[i].email == cfg.admin.value.email;
      var k := AdminAt(p, cfg.admin.value, cfg.users);
      assert IsAdminEntry(p, cfg.admin.value, cfg.users[i]);
      assert k == i;
      assert Promoted(cfg.admin.value, cfg.users[i]) == cfg.users[i];
    }
  }

  lemma PortableUsers(p: Platform, db: Tables, tid: Id, users: seq<UserConfig>, ids: seq<Id>, newTid: Id, now: Time)
    requires UniqueUsers(db.users) && UsersListed(db, tid, users, ids) && UsersPortable(p, UsersView(db.users, tid))
    ensures UsersOk(p, users) && EntryUsers(p, users) == UsersView(db.users, tid)
  {
    UsersDocumented(db, tid, users, ids);
    forall i | 0 <= i < |users|
      ensures DocUser(users[i]) in UsersView(db.users, tid) && UserOk(p, users[i])
      ensures EntryUser(p, users[i]) == DocUser(users[i])
    {
      assert DocUser(users[i]) in DocUsers(users);
    }
    forall i, j | 0 <= i < j < |users|
      ensures p.lower(users[i].email) != p.lower(users[j].email)
    {
      assert ids[i] in Scoped(db.users, tid) && ids[j] in Scoped(db.users, tid) && ids[i] != ids[j];
      assert DocUser(users[i]).email != DocUser(users[j]).email;
    }
    assert forall u :: u in users ==> EntryUser(p, u) == DocUser(u);
    assert EntryUsers(p, users) == DocUsers(users) by {
      hide EntryUser, DocUser, UsersView;
    }
  }

  lemma PortableClients(p: Platform, db: Tables, tid: Id, clients: seq<ClientConfig>, ids: seq<Id>)
    requires ClientsListed(db, tid, clients, ids)
    requires forall v :: v in ClientsView(db.clients, tid) ==> ClientViewOk(p, v)
    ensures ClientsOk(p, clients)
    ensures forall i :: 0 <= i < |clients| ==> ClientKept(clients[i], WithoutTenant(db, tid).clients.Keys)
  {
    forall i | 0 <= i < |clients|
      ensures ClientOk(p, clients[i]) && ClientKept(clients[i], WithoutTenant(db, tid).clients.Keys)
    {
      assert ids[i] in ClientsOf(db, tid);
      assert ClientViewOk(p, ViewClient(ids[i], db.clients[ids[i]]));
    }
  }

  lemma PortableCampaigns(p: Platform, db: Tables, tid: Id, cfg: ImportConfig, ids: Listing, now: Time)
    requires Sound(db) && CampaignsListed(db, tid, cfg.campaigns, ids.campaigns) && CampaignsPortable(db, tid)
    requires forall s :: s in SegmentsOf(db, tid) ==> db.segments[s].name in SegmentNames(cfg.segments)
    requires forall c :: c in ContactsOf(db, tid) ==> db.contacts[c].email in ContactEmails(p, cfg.contacts)
    ensures forall i :: 0 <= i < |cfg.campaigns| ==>
      && Accepted(cfg.campaigns[i], SegmentNames(cfg.segments), ContactEmails(p, cfg.contacts))
      && ids.campaigns[i] in db.campaigns
      && DocCampaign(cfg.campaigns[i], SegmentNames(cfg.segments), now) == CampaignAt(db, tid, ids.campaigns[i])
  {
    hide Sound, DocCampaign, CampaignViewOk, CampaignAt, SegmentNames, ContactEmails, ContactsOf, SegmentsOf;
    forall i | 0 <= i < |cfg.campaigns|
      ensures Accepted(cfg.campaigns[i], SegmentNames(cfg.segments), ContactEmails(p, cfg.contacts))
      ensures ids.campaigns[i] in db.campaigns
      ensures DocCampaign(cfg.campaigns[i], SegmentNames(cfg.segments), now) == CampaignAt(db, tid, ids.campaigns[i])
    {
      assert ids.campaigns[i] in CampaignsOf(db, tid) && CampaignListed(db, tid, ids.campaigns[i], cfg.campaigns[i]);
      hide CampaignListed;
      CampaignDocumented(db, tid, ids.campaigns[i], cfg.campaigns[i], SegmentNames(cfg.segments), now);
      RecipientsKnown(p, db, tid, ids.campaigns[i], cfg.campaigns[i], ContactEmails(p, cfg.contacts));
      hide Exportable, Accepted, FirstRecipients, DocRecipients;
      ExportableIs(cfg.campaigns[i], SegmentNames(cfg.segments), ContactEmails(p, cfg.contacts));
    }
  }

  /** The document of a portable tenant passes every check and describes the tenant. */
  lemma PortableDocument(p: Platform, db: Tables, tid: Id, cfg: ImportConfig, ids: Listing, newTid: Id, now: Time)
    requires Sound(db) && Exported(db, tid, cfg, ids) && Portable(p, db, tid)
    ensures UsersOk(p, Merged(p, cfg.admin, cfg.users)) && ClientsOk(p, cfg.clients)
    ensures forall i :: 0 <= i < |cfg.clients| ==> ClientKept(cfg.clients[i], WithoutTenant(db, tid).clients.Keys)
    ensures EntryUsers(p, Merged(p, cfg.admin, cfg.users)) == UsersView(db.users, tid)
    ensures ClientViews(cfg.clients) == ClientsView(db.clients, tid)
    ensures SegmentViews(cfg.segments) == SegmentsView(db.segments, tid)
    ensures ContactViews(p, cfg.contacts, SegmentNames(cfg.segments), now)
         == ContactsView(db.contacts, db.segments, db.contactSegments, tid)
    ensures forall i :: 0 <= i < |cfg.campaigns| ==>
      && Accepted(cfg.campaigns[i], SegmentNames(cfg.segments), ContactEmails(p, cfg.contacts))
      && ids.campaigns[i] in db.campaigns
      && DocCampaign(cfg.campaigns[i], SegmentNames(cfg.segments), now) == CampaignAt(db, tid, ids.campaigns[i])
  {
    SegmentsDocumented(db, tid, cfg.segments, ids.segments);
    assert UniqueUsers(db.users);
    hide Sound, UniqueUsers;
    PortableUsers(p, db, tid, cfg.users, ids.users, newTid, now);
    PortableClients(p, db, tid, cfg.clients, ids.clients);
    hide UsersListed, UsersPortable, UsersView, UsersOk, AdminListed, ClientsOk, ClientKept, ClientViewOk, Merged;
    hide EntryUsers;
    MergeIsIdle(p, cfg);
    ClientsDocumented(db, tid, cfg.clients, ids.clients);
    hide ClientsListed, ClientsView, ClientViews, SegmentsListed, SegmentViews, SegmentsView;
    ContactsDocumented(p, db, tid, cfg.contacts, ids.contacts, SegmentNames(cfg.segments), now);
    PortableCampaigns(p, db, tid, cfg, ids, now);
  }

  /** A portable tenant is imported, and comes back the same. */
  lemma PortableReturns(p: Platform, db: Tables, tid: Id, cfg: ImportConfig, ids: Listing, now: Time, next: nat)
    requires Sound(db) && Exported(db, tid, cfg, ids) && Portable(p, db, tid) && Proper(p)
    requires Fresh(p, next, WithoutTenant(db, tid)) && NothingLeft(WithoutTenant(db, tid), p.uuid(next))
    ensures Import(p, WithoutTenant(db, tid), cfg, now, next).Some?
    ensures SameTenant(db, tid, Import(p, WithoutTenant(db, tid), cfg, now, next).value.db, p.uuid(next))
  {
    hide Sound, NothingLeft, Document, Empty, Fresh, UsersOk, ClientsOk, ClientKept, ClientViewOk, Merged;
    hide EntryUsers;
    hide UsersListed, ClientsListed, SegmentsListed, ContactsListed, UsersPortable, PeoplePortable, CampaignsPortable;
    hide UsersView, ClientsView, SegmentsView, ContactsView, ClientViews, SegmentViews, ContactViews, ContactEmails;
    hide SegmentNames, Accepted, AdminListed, Proper, WithoutTenant, CampaignAt, DocCampaign, CampaignListed, AddAll;
    var rest, newTid := WithoutTenant(db, tid), p.uuid(next);
    LocalTenantsGo(db, tid);
    ExportedForm(db, tid, cfg, ids);
    StartsEmpty(p, rest, cfg, now, next);
    PortableDocument(p, db, tid, cfg, ids, newTid, now);
    var s := WithEmptyTenant(p, rest, cfg, now, next);
    assert s.db.clients == rest.clients && s.db.tenants == rest.tenants[newTid := NewTenant(cfg, now)];
    hide WithEmptyTenant;
    var made := DocumentAdded(p, s, newTid, cfg, now);
    var r := Import(p, rest, cfg, now, next).value.db;
    assert ProfileOf(db.tenants[tid]) == ProfileOf(r.tenants[newTid]);
    assert SameCampaigns(db, tid, r, newTid, ids.campaigns, made) by {
      hide ProfileOf;
    }
  }

  lemma ImportedUsersPortable(p: Platform, users: seq<UserConfig>)
    requires Proper(p) && UsersOk(p, users)
    ensures UsersPortable(p, EntryUsers(p, users))
  {
    forall v, w | v in EntryUsers(p, users) && w in EntryUsers(p, users)
      ensures UserViewOk(p, v) && (p.lower(v.email) == p.lower(w.email) ==> v == w)
    {
      var i :| 0 <= i < |users| && EntryUser(p, users[i]) == v;
      var j :| 0 <= j < |users| && EntryUser(p, users[j]) == w;
      assert UserOk(p, users[i]) && p.bcrypt(users[i].password) != "";
      if i != j {
        assert p.lower(users[i].email) != p.lower(users[j].email);
      }
    }
  }

  lemma ImportedContactsPortable(p: Platform, contacts: seq<ContactConfig>, known: set<string>, now: Time)
    ensures forall v :: v in ContactViews(p, contacts, known, now) ==> ContactViewOk(p, v)
  {
  }

  lemma ImportedCampaignPortable(c: CampaignConfig, known: set<string>, now: Time)
    requires StatusOk(c.status) && Exportable(c)
    ensures CampaignViewOk(DocCampaign(c, known, now))
  {
  }

  /** Whatever an import of such a document makes is portable: an import leaves no attachment and no foreign label. */
  lemma ImportedCampaignsPortable(p: Platform, t: Loaded, tid: Id, cfg: ImportConfig, now: Time, ids: seq<Id>)
    requires Document(cfg) && Described(p, t, tid, cfg, now, ids)
    ensures CampaignsPortable(t.db, tid)
  {
    hide Exportable, CampaignViewOk, DocCampaign, CampaignAt;
    forall c | c in CampaignsOf(t.db, tid)
      ensures CampaignViewOk(CampaignAt(t.db, tid, c))
    {
      var i :| 0 <= i < |ids| && ids[i] == c;
      assert Accepted(cfg.campaigns[i], SegmentNames(cfg.segments), ContactEmails(p, cfg.contacts))
          && Exportable(cfg.campaigns[i]);
      ImportedCampaignPortable(cfg.campaigns[i], SegmentNames(cfg.segments), now);
    }
  }

  lemma ImportedPeoplePortable(p: Platform, t: Loaded, tid: Id, cfg: ImportConfig, now: Time, ids: seq<Id>)
    requires Proper(p) && Described(p, t, tid, cfg, now, ids)
    ensures PeoplePortable(p, t.db, tid)
  {
    hide Made, UsersOk, UsersPortable, ClientViewOk, ContactViewOk, ContactViews, EntryUsers, SegmentNames;
    ImportedUsersPortable(p, Merged(p, cfg.admin, cfg.users));
    ImportedContactsPortable(p, cfg.contacts, SegmentNames(cfg.segments), now);
  }

  /** Being portable is about what a tenant is, not about its ids. */
  lemma SameIsPortable(p: Platform, db: Tables, tid: Id, other: Tables, otherTid: Id)
    requires SameTenant(db, tid, other, otherTid) && PeoplePortable(p, other, otherTid)
    requires CampaignsPortable(other, otherTid)
    ensures PeoplePortable(p, db, tid) && CampaignsPortable(db, tid)
  {
    hide UsersView, ClientsView, SegmentsView, ContactsView, CampaignAt, CampaignViewOk, ContactViewOk, ClientViewOk;
    hide UserViewOk;
    var ids, otherIds :| SameCampaigns(db, tid, other, otherTid, ids, otherIds);
    forall c | c in CampaignsOf(db, tid)
      ensures CampaignViewOk(CampaignAt(db, tid, c))
    {
      var i :| 0 <= i < |ids| && ids[i] == c;
      assert otherIds[i] in CampaignsOf(other, otherTid);
    }
  }

  /** A tenant that comes back the same was portable. */
  lemma ReturnsPortable(p: Platform, db: Tables, tid: Id, cfg: ImportConfig, ids: Listing, now: Time, next: nat)
    requires Sound(db) && Exported(db, tid, cfg, ids) && Proper(p)
    requires Fresh(p, next, WithoutTenant(db, tid)) && NothingLeft(WithoutTenant(db, tid), p.uuid(next))
    requires Import(p, WithoutTenant(db, tid), cfg, now, next).Some?
    requires SameTenant(db, tid, Import(p, WithoutTenant(db, tid), cfg, now, next).value.db, p.uuid(next))
    ensures Portable(p, db, tid)
  {
    hide Sound, NothingLeft, Document, Empty, Fresh, ClientsOk, ClientKept, Merged, EntryUsers, PeoplePortable;
    hide UsersListed, ClientsListed, SegmentsListed, ContactsListed, CampaignsListed, CampaignsPortable, Described;
    hide Accepted, AdminListed, Proper, WithoutTenant, AddAll, SamePeople, SameCampaigns, ContactEmails, UsersOk;
    var rest, newTid := WithoutTenant(db, tid), p.uuid(next);
    LocalTenantsGo(db, tid);
    ExportedForm(db, tid, cfg, ids);
    StartsEmpty(p, rest, cfg, now, next);
    var s := WithEmptyTenant(p, rest, cfg, now, next);
    var made := DocumentAdded(p, s, newTid, cfg, now);
    var t := Import(p, rest, cfg, now, next).value;
    ImportedPeoplePortable(p, t, newTid, cfg, now, made);
    ImportedCampaignsPortable(p, t, newTid, cfg, now, made);
    assert t.db.tenants[newTid] == NewTenant(cfg, now);
    SameIsPortable(p, db, tid, t.db, newTid);
  }

  /** Exporting a tenant, deleting it and importing the document gives it back exactly when it is portable. */
  lemma MigrationReturnsExactlyThePortable(p: Platform, db: Tables, tid: Id, cfg: ImportConfig, ids: Listing,
                                           now: Time, next: nat)
    requires Sound(db) && Exported(db, tid, cfg, ids) && Proper(p)
    requires Fresh(p, next, WithoutTenant(db, tid)) && NothingLeft(WithoutTenant(db, tid), p.uuid(next))
    ensures
      var returned := Import(p, WithoutTenant(db, tid), cfg, now, next);
      (returned.Some? && SameTenant(db, tid, returned.value.db, p.uuid(next))) <==> Portable(p, db, tid)
  {
    hide Sound, NothingLeft, Fresh, Import, SameTenant, Portable, Exported, Proper;
    var returned := Import(p, WithoutTenant(db, tid), cfg, now, next);
    if returned.Some? && SameTenant(db, tid, returned.value.db, p.uuid(next)) {
      ReturnsPortable(p, db, tid, cfg, ids, now, next);
    }
    ExportedSlug(db, tid, cfg, ids);
    if Portable(p, db, tid) {
      PortableReturns(p, db, tid, cfg, ids, now, next);
    }
  }

  /** One tenant with one user, whose role is the one registration and activation give. */
  function Registered(): Tables {
    Tables(map["t" := Tenant("acme", "Acme", true, NO_SMTP, 0)],
           map["u" := User("t", "ann@acme.com", "hash", "Ann", "user", 0, None)],
           map[], map[], map[], map[], map[], map[], {}, map[], {}, map[])
  }

  /** A tenant with a self-registered user does not survive a migration, whatever the syntax checks say. */
  lemma RegisteredUsersAreNotPortable(p: Platform)
    ensures Sound(Registered()) && !Portable(p, Registered(), "t")
  {
    var db := Registered();
    assert ViewUser(db.users["u"]) in UsersView(db.users, "t");
    assert !UserViewOk(p, ViewUser(db.users["u"]));
  }

  /** A tenant with one campaign that has an attachment, and nothing else. */
  function Attached(): Tables {
    Tables(map["t" := Tenant("acme", "Acme", true, NO_SMTP, 0)], map[], map[], map[], map[], map[], map[], map[], {},
           map["c" := Campaign("t", "Hi", "Hello", "", "", "https://acme.com/a.pdf", "draft", None, 0)], {}, map[])
  }

  /** The import of a dated campaign has no place for the attachment. */
  lemma AttachmentsAreNotPortable(p: Platform)
    ensures Sound(Attached()) && !Portable(p, Attached(), "t")
  {
    assert "c" in CampaignsOf(Attached(), "t") && !CampaignViewOk(CampaignAt(Attached(), "t", "c"));
  }

  lemma SlugIsFreed(db: Tables, tid: Id)
    requires Sound(db) && tid in db.tenants
    ensures !SlugTaken(WithoutTenant(db, tid), db.tenants[tid].slug)
  {
    assert UniqueSlugs(db.tenants);
  }

  /** The three requests one after the other: the tenant is back, and the same, exactly when it was portable. */
  method Migrate(db: Database, p: Platform, tid: Id, now: Time, start: nat) returns (result: ImportResult)
    requires Sound(db.tables) && tid in db.tables.tenants && Proper(p)
    requires Fresh(p, start, WithoutTenant(db.tables, tid)) && NothingLeft(WithoutTenant(db.tables, tid), p.uuid(start))
    modifies db
    ensures result.Done? && SameTenant(old(db.tables), tid, db.tables, result.tenantId) <==>
      Portable(p, old(db.tables), tid)
    ensures result.Done? ==> Sound(db.tables)
  {
    assert p.uuid(start) !in WithoutTenant(db.tables, tid).tenants;
    hide Sound, Fresh, NothingLeft, SameTenant, Portable, Proper, Exported, WithoutTenant, Import, Detachable, After;
    hide SlugTaken;
    ghost var was := db.tables;
    var cfg, ids := Export(db, tid);
    ExportedSlug(was, tid, cfg.value, ids);
    LocalTenantsGo(was, tid);
    assert ForeignKeys(was) by { SoundKeys(was); }
    var outcome := Delete(db, tid);
    assert db.tables == WithoutTenant(was, tid);
    SlugIsFreed(was, tid);
    MigrationReturnsExactlyThePortable(p, was, tid, cfg.value, ids, now, start);
    if Import(p, db.tables, cfg.value, now, start).Some? {
      ImportSound.ImportKeepsSound(p, db.tables, cfg.value, now, start);
    }
    var next;
    result, next := ImportTenantConfig(db, p, cfg.value, now, start);
    if !p.validSlug(cfg.value.slug) {
      InvalidSlugIsNotPortable(p, was, tid, cfg.value, ids);
    }
  }

  lemma SoundKeys(db: Tables)
    requires Sound(db)
    ensures ForeignKeys(db)
  {
  }

  lemma ExportedSlug(db: Tables, tid: Id, cfg: ImportConfig, ids: Listing)
    requires Exported(db, tid, cfg, ids)
    ensures tid in db.tenants && cfg.slug == db.tenants[tid].slug
  {
  }

  lemma InvalidSlugIsNotPortable(p: Platform, db: Tables, tid: Id, cfg: ImportConfig, ids: Listing)
    requires Exported(db, tid, cfg, ids) && !p.validSlug(cfg.slug)
    ensures !Portable(p, db, tid)
  {
  }
}

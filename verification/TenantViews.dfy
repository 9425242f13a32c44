/**
 * What a tenant consists of once its internal ids are forgotten: rows named by their natural keys (email, client id,
 * segment name), memberships by segment name and recipients by email. Two tenants are the same when these agree.
 */
module TenantViews {
  import opened Wrappers
  import opened Schema
  import opened StoreOps

  datatype Profile = Profile(slug: string, name: string, registrationEnabled: bool, smtp: Smtp)

  datatype UserView = UserView(email: string, passwordHash: string, name: string, role: string)

  datatype ClientView = ClientView(id: Id, secretHash: string, name: string, redirectUris: seq<string>)

  datatype SegmentView = SegmentView(name: string, description: string)

  /** A segment as its own tenant names it; one of another tenant has only its id. */
  datatype Label = Own(name: string) | Foreign(id: Id)

  datatype ContactView = ContactView(email: string, name: string, consentSource: string, unsubscribed: bool,
                                     consentAt: Time, createdAt: Time, segments: set<Label>)

  datatype RecipientView = RecipientView(email: string, status: string, errorMessage: string,
                                         sentAt: Option<Time>, openedAt: Option<Time>)

  datatype CampaignView = CampaignView(subject: string, htmlBody: string, fromName: string, fromEmail: string,
                                       attachmentUrl: string, status: string, sentAt: Option<Time>, createdAt: Time,
                                       segments: set<Label>, recipients: set<RecipientView>)

  function ProfileOf(t: Tenant): Profile {
    Profile(t.slug, t.name, t.registrationEnabled, t.smtp)
  }

  function ViewUser(u: User): UserView {
    UserView(u.email, u.passwordHash, u.name, u.role)
  }

  function ViewClient(id: Id, c: Client): ClientView {
    ClientView(id, c.secretHash, c.name, c.redirectUris)
  }

  function ViewSegment(s: Segment): SegmentView {
    SegmentView(s.name, s.description)
  }

  function LabelOf(segments: map<Id, Segment>, tid: Id, s: Id): Label {
    if s in segments && segments[s].tenantId == tid then Own(segments[s].name) else Foreign(s)
  }

  function Labels(segments: map<Id, Segment>, pairs: set<(Id, Id)>, tid: Id, owner: Id): set<Label> {
    set p | p in pairs && p.0 == owner :: LabelOf(segments, tid, p.1)
  }

  function ViewContact(c: Contact, labels: set<Label>): ContactView {
    ContactView(c.email, c.name, c.consentSource, c.unsubscribed, c.consentAt, c.createdAt, labels)
  }

  function ViewRecipient(r: Recipient, email: string): RecipientView {
    RecipientView(email, r.status, r.errorMessage, r.sentAt, r.openedAt)
  }

  function Recipients(rows: map<Id, Recipient>, contacts: map<Id, Contact>, campaign: Id): set<RecipientView> {
    set r | r in rows && rows[r].campaignId == campaign && rows[r].contactId in contacts ::
      ViewRecipient(rows[r], contacts[rows[r].contactId].email)
  }

  function ViewCampaign(c: Campaign, labels: set<Label>, recipients: set<RecipientView>): CampaignView {
    CampaignView(c.subject, c.htmlBody, c.fromName, c.fromEmail, c.attachmentUrl, c.status, c.sentAt, c.createdAt,
                 labels, recipients)
  }

  function UsersView(users: map<Id, User>, tid: Id): set<UserView> {
    set u | u in users && users[u].tenantId == tid :: ViewUser(users[u])
  }

  function ClientsView(clients: map<Id, Client>, tid: Id): set<ClientView> {
    set c | c in clients && clients[c].tenantId == tid :: ViewClient(c, clients[c])
  }

  function SegmentsView(segments: map<Id, Segment>, tid: Id): set<SegmentView> {
    set s | s in segments && segments[s].tenantId == tid :: ViewSegment(segments[s])
  }

  function ContactsView(contacts: map<Id, Contact>, segments: map<Id, Segment>, pairs: set<(Id, Id)>, tid: Id):
    set<ContactView>
  {
    set c | c in contacts && contacts[c].tenantId == tid :: ViewContact(contacts[c], Labels(segments, pairs, tid, c))
  }

  function CampaignAt(db: Tables, tid: Id, c: Id): CampaignView
    requires c in db.campaigns
  {
    ViewCampaign(db.campaigns[c], Labels(db.segments, db.campaignSegments, tid, c),
                 Recipients(db.recipients, db.contacts, c))
  }

  /** The ids of a set in some order, each once. */
  ghost predicate Enumerates(ids: seq<Id>, rows: set<Id>) {
    && (forall i, j :: 0 <= i < j < |ids| ==> ids[i] != ids[j])
    && (forall i :: 0 <= i < |ids| ==> ids[i] in rows)
    && (forall r :: r in rows ==> r in ids)
  }

  /** The campaigns have no natural key, so they are paired off: a renaming of campaign ids that keeps what they are. */
  ghost predicate SameCampaigns(db: Tables, tid: Id, other: Tables, otherTid: Id, ids: seq<Id>, otherIds: seq<Id>) {
    && Enumerates(ids, CampaignsOf(db, tid)) && Enumerates(otherIds, CampaignsOf(other, otherTid))
    && |ids| == |otherIds|
    && forall i :: 0 <= i < |ids| ==> CampaignAt(db, tid, ids[i]) == CampaignAt(other, otherTid, otherIds[i])
  }

  ghost predicate SamePeople(db: Tables, tid: Id, other: Tables, otherTid: Id) {
    && UsersView(db.users, tid) == UsersView(other.users, otherTid)
    && ClientsView(db.clients, tid) == ClientsView(other.clients, otherTid)
    && SegmentsView(db.segments, tid) == SegmentsView(other.segments, otherTid)
    && ContactsView(db.contacts, db.segments, db.contactSegments, tid)
       == ContactsView(other.contacts, other.segments, other.contactSegments, otherTid)
  }

  ghost predicate SameTenant(db: Tables, tid: Id, other: Tables, otherTid: Id) {
    && tid in db.tenants && otherTid in other.tenants
    && ProfileOf(db.tenants[tid]) == ProfileOf(other.tenants[otherTid])
    && SamePeople(db, tid, other, otherTid)
    && exists ids, otherIds :: SameCampaigns(db, tid, other, otherTid, ids, otherIds)
  }
}

/**
 * The SQLite schema of backend/main.go: one map or set per table, the statements the stores execute on it,
 * and the constraints (primary keys, UNIQUE, REFERENCES, ON DELETE CASCADE) those statements meet.
 * A statement that violates a constraint has no result.
 */
module Schema {
  import opened Wrappers

  type Id = string

  type Time = int

  datatype Smtp = Smtp(host: string, port: string, user: string, password: string,
                       from: string, fromName: string, rateMs: int)

  datatype Tenant = Tenant(slug: string, name: string, registrationEnabled: bool, smtp: Smtp, createdAt: Time)

  datatype ResetToken = ResetToken(token: Id, expiresAt: Time)

  datatype User = User(tenantId: Id, email: string, passwordHash: string, name: string, role: string,
                       createdAt: Time, reset: Option<ResetToken>)

  datatype Client = Client(tenantId: Id, secretHash: string, name: string, redirectUris: seq<string>, createdAt: Time)

  datatype AuthCode = AuthCode(tenantId: Id, clientId: Id, userId: Id, redirectUri: string, scope: string,
                               nonce: string, codeChallenge: string, codeChallengeMethod: string,
                               expiresAt: Time, used: bool)

  datatype RefreshToken = RefreshToken(tenantId: Id, clientId: Id, userId: Id, scope: string,
                                       expiresAt: Time, revoked: bool)

  datatype SigningKey = SigningKey(tenantId: Id, privateKey: Id, createdAt: Time)

  datatype Contact = Contact(tenantId: Id, email: string, name: string, userId: Option<Id>, unsubscribed: bool,
                             unsubscribeToken: Id, inviteToken: Option<Id>, inviteExpiresAt: Option<Time>,
                             consentSource: string, consentAt: Time, createdAt: Time)

  datatype Segment = Segment(tenantId: Id, name: string, description: string, createdAt: Time)

  datatype Campaign = Campaign(tenantId: Id, subject: string, htmlBody: string, fromName: string, fromEmail: string,
                               attachmentUrl: string, status: string, sentAt: Option<Time>, createdAt: Time)

  datatype Recipient = Recipient(campaignId: Id, contactId: Id, status: string, errorMessage: string,
                                 sentAt: Option<Time>, openedAt: Option<Time>)

  datatype Tables = Tables(
    tenants: map<Id, Tenant>,
    users: map<Id, User>,
    clients: map<Id, Client>,
    authCodes: map<Id, AuthCode>,
    refreshTokens: map<Id, RefreshToken>,
    keys: map<Id, SigningKey>,
    contacts: map<Id, Contact>,
    segments: map<Id, Segment>,
    contactSegments: set<(Id, Id)>,
    campaigns: map<Id, Campaign>,
    campaignSegments: set<(Id, Id)>,
    recipients: map<Id, Recipient>)

  /** The open database; a transaction works on a copy of the tables and publishes it on commit. */
  class Database {
    var tables: Tables

    constructor (tables: Tables)
      ensures this.tables == tables
    {
      this.tables := tables;
    }
  }

  // --- Constraints ---

  ghost predicate ForeignKeys(db: Tables) {
    && LinksExist(db.contacts, db.users)
    && MembersExist(db.contactSegments, db.contacts, db.segments)
    && TargetsExist(db.campaignSegments, db.campaigns, db.segments)
    && RecipientsExist(db.recipients, db.campaigns, db.contacts)
  }

  ghost predicate LinksExist(contacts: map<Id, Contact>, users: map<Id, User>) {
    forall c :: c in contacts && contacts[c].userId.Some? ==> contacts[c].userId.value in users
  }

  ghost predicate MembersExist(pairs: set<(Id, Id)>, contacts: map<Id, Contact>, segments: map<Id, Segment>) {
    forall p :: p in pairs ==> p.0 in contacts && p.1 in segments
  }

  ghost predicate TargetsExist(pairs: set<(Id, Id)>, campaigns: map<Id, Campaign>, segments: map<Id, Segment>) {
    forall p :: p in pairs ==> p.0 in campaigns && p.1 in segments
  }

  ghost predicate RecipientsExist(rows: map<Id, Recipient>, campaigns: map<Id, Campaign>, contacts: map<Id, Contact>) {
    forall r :: r in rows ==> rows[r].campaignId in campaigns && rows[r].contactId in contacts
  }

  ghost predicate Uniques(db: Tables) {
    && UniqueSlugs(db.tenants)
    && UniqueUsers(db.users)
    && UniqueContacts(db.contacts)
    && UniqueSegments(db.segments)
    && UniqueRecipients(db.recipients)
  }

  ghost predicate UniqueSlugs(rows: map<Id, Tenant>) {
    forall a, b :: a in rows && b in rows && rows[a].slug == rows[b].slug ==> a == b
  }

  ghost predicate UniqueUsers(rows: map<Id, User>) {
    forall a, b :: a in rows && b in rows && rows[a].tenantId == rows[b].tenantId && rows[a].email == rows[b].email ==>
      a == b
  }

  /** UNIQUE (tenant_id, email), unsubscribe_token and, where it is not null, invite_token. */
  ghost predicate UniqueContacts(rows: map<Id, Contact>) {
    forall a, b :: a in rows && b in rows && Clash(rows[a], rows[b]) ==> a == b
  }

  predicate Clash(c: Contact, d: Contact) {
    || (c.tenantId == d.tenantId && c.email == d.email)
    || c.unsubscribeToken == d.unsubscribeToken
    || (c.inviteToken.Some? && c.inviteToken == d.inviteToken)
  }

  ghost predicate UniqueSegments(rows: map<Id, Segment>) {
    forall a, b :: a in rows && b in rows && rows[a].tenantId == rows[b].tenantId && rows[a].name == rows[b].name ==>
      a == b
  }

  ghost predicate UniqueRecipients(rows: map<Id, Recipient>) {
    forall a, b :: a in rows && b in rows && SamePair(rows[a], rows[b]) ==> a == b
  }

  predicate SamePair(r: Recipient, q: Recipient) {
    r.campaignId == q.campaignId && r.contactId == q.contactId
  }

  /** What no constraint of the schema says: links between campaigns, contacts and users stay inside a tenant. */
  ghost predicate TenantLocal(db: Tables) {
    RecipientsLocal(db.recipients, db.campaigns, db.contacts) && LinksLocal(db.contacts, db.users)
  }

  ghost predicate RecipientsLocal(rows: map<Id, Recipient>, campaigns: map<Id, Campaign>, contacts: map<Id, Contact>) {
    forall r :: r in rows && rows[r].campaignId in campaigns && rows[r].contactId in contacts ==>
      campaigns[rows[r].campaignId].tenantId == contacts[rows[r].contactId].tenantId
  }

  ghost predicate LinksLocal(contacts: map<Id, Contact>, users: map<Id, User>) {
    forall c :: c in contacts && contacts[c].userId.Some? && contacts[c].userId.value in users ==>
      users[contacts[c].userId.value].tenantId == contacts[c].tenantId
  }

  // --- Fresh ids ---

  /** An endless supply of fresh ids: injective, and from position `next` on nothing in the database uses them. */
  ghost predicate Supply(uuid: nat -> Id, next: nat, taken: set<Id>) {
    && (forall i, j :: uuid(i) == uuid(j) ==> i == j)
    && (forall i :: i >= next ==> uuid(i) !in taken)
  }

  // --- INSERT ---

  function InsertTenant(db: Tables, id: Id, row: Tenant): Option<Tables> {
    if id in db.tenants || exists t :: t in db.tenants && db.tenants[t].slug == row.slug then None
    else Some(db.(tenants := db.tenants[id := row]))
  }

  function InsertUser(db: Tables, id: Id, row: User): Option<Tables> {
    if id in db.users || EmailTaken(db, row.tenantId, row.email) then None
    else Some(db.(users := db.users[id := row]))
  }

  predicate EmailTaken(db: Tables, tenantId: Id, email: string) {
    exists u :: u in db.users && db.users[u].tenantId == tenantId && db.users[u].email == email
  }

  function InsertClient(db: Tables, id: Id, row: Client): Option<Tables> {
    if id in db.clients then None else Some(db.(clients := db.clients[id := row]))
  }

  predicate ContactClashes(db: Tables, except: Option<Id>, row: Contact) {
    exists c :: c in db.contacts && Some(c) != except && Clash(row, db.contacts[c])
  }

  function InsertContact(db: Tables, id: Id, row: Contact): Option<Tables> {
    if || id in db.contacts || ContactClashes(db, None, row)
       || (row.userId.Some? && row.userId.value !in db.users) then None
    else Some(db.(contacts := db.contacts[id := row]))
  }

  predicate SegmentNameTaken(db: Tables, except: Option<Id>, tenantId: Id, name: string) {
    exists s :: s in db.segments && Some(s) != except && db.segments[s].tenantId == tenantId
                && db.segments[s].name == name
  }

  function InsertSegment(db: Tables, id: Id, row: Segment): Option<Tables> {
    if id in db.segments || SegmentNameTaken(db, None, row.tenantId, row.name) then None
    else Some(db.(segments := db.segments[id := row]))
  }

  /** INSERT OR IGNORE: a duplicate pair is ignored, a dangling one is still refused. */
  function InsertContactSegment(db: Tables, contact: Id, segment: Id): Option<Tables> {
    if contact !in db.contacts || segment !in db.segments then None
    else Some(db.(contactSegments := db.contactSegments + {(contact, segment)}))
  }

  function InsertCampaign(db: Tables, id: Id, row: Campaign): Option<Tables> {
    if id in db.campaigns then None else Some(db.(campaigns := db.campaigns[id := row]))
  }

  function InsertCampaignSegment(db: Tables, campaign: Id, segment: Id): Option<Tables> {
    if || (campaign, segment) in db.campaignSegments
       || campaign !in db.campaigns || segment !in db.segments then None
    else Some(db.(campaignSegments := db.campaignSegments + {(campaign, segment)}))
  }

  predicate HasRecipient(db: Tables, campaign: Id, contact: Id) {
    exists r :: r in db.recipients && db.recipients[r].campaignId == campaign && db.recipients[r].contactId == contact
  }

  /** INSERT OR IGNORE: a second row for the same campaign and contact is ignored. */
  function InsertRecipient(db: Tables, id: Id, row: Recipient): Option<Tables> {
    if id in db.recipients || HasRecipient(db, row.campaignId, row.contactId) then Some(db)
    else if row.campaignId !in db.campaigns || row.contactId !in db.contacts then None
    else Some(db.(recipients := db.recipients[id := row]))
  }

  // --- DELETE ---

  function DeleteCampaigns(db: Tables, gone: set<Id>): Tables {
    db.(campaigns := db.campaigns - gone,
        campaignSegments := (set p | p in db.campaignSegments && p.0 !in gone),
        recipients := (map r | r in db.recipients && db.recipients[r].campaignId !in gone :: db.recipients[r]))
  }

  /** recipients.contact_id has no cascade, so a contact that is some campaign's recipient cannot go. */
  function DeleteContacts(db: Tables, gone: set<Id>): Option<Tables> {
    if exists r :: r in db.recipients && db.recipients[r].contactId in gone * db.contacts.Keys then None
    else Some(db.(contacts := db.contacts - gone,
                  contactSegments := (set p | p in db.contactSegments && p.0 !in gone)))
  }

  function DeleteSegments(db: Tables, gone: set<Id>): Tables {
    db.(segments := db.segments - gone,
        contactSegments := (set p | p in db.contactSegments && p.1 !in gone),
        campaignSegments := (set p | p in db.campaignSegments && p.1 !in gone))
  }

  /** contacts.user_id has no cascade, so a user linked to a contact cannot go. */
  function DeleteUsers(db: Tables, gone: set<Id>): Option<Tables> {
    if exists c :: c in db.contacts && db.contacts[c].userId.Some?
                   && db.contacts[c].userId.value in gone * db.users.Keys
    then None
    else Some(db.(users := db.users - gone))
  }
}

/**
 * ImportTenantConfig of backend/tenant/export_import.go: what one entry of the document adds, what the loops over the
 * entries add, and the method that runs them. Nothing here is one transaction: every statement commits by itself.
 */
module TenantImport {
  import opened Wrappers
  import opened Schema
  import opened StoreOps
  import opened TenantConfig

  /**
   * The import between two entries: tables, next fresh identifier, name-to-id and email-to-id maps, skipped contacts.
   */
  datatype Loaded = Loaded(db: Tables, next: nat, segments: map<string, Id>, contacts: map<string, Id>,
                           skipped: seq<string>)

  // --- Users ---

  function NewUser(p: Platform, tid: Id, u: UserConfig, now: Time): User {
    if u.passwordHash != "" then User(tid, u.email, u.passwordHash, u.name, u.role, now, None)
    else User(tid, u.email, p.bcrypt(u.password), u.name, if u.role == ADMIN then ADMIN else MEMBER, now, None)
  }

  function AddUser(p: Platform, s: Loaded, tid: Id, u: UserConfig, now: Time): Option<Loaded> {
    match InsertUser(s.db, p.uuid(s.next), NewUser(p, tid, u, now))
    case None => None
    case Some(db) => Some(s.(db := db, next := s.next + 1))
  }

  function AddUsers(p: Platform, s: Loaded, tid: Id, users: seq<UserConfig>, now: Time): Option<Loaded> {
    if users == [] then Some(s)
    else
      match AddUsers(p, s, tid, users[..|users| - 1], now)
      case None => None
      case Some(t) => AddUser(p, t, tid, users[|users| - 1], now)
  }

  // --- Clients ---

  predicate ClientOk(p: Platform, c: ClientConfig) {
    NameOk(c.name) && forall i :: 0 <= i < |c.redirectUris| ==> p.validUri(c.redirectUris[i])
  }

  ghost predicate ClientsOk(p: Platform, clients: seq<ClientConfig>) {
    forall i :: 0 <= i < |clients| ==> ClientOk(p, clients[i])
  }

  function ClientId(p: Platform, s: Loaded, c: ClientConfig): Id {
    if c.clientId != "" then c.clientId else p.uuid(s.next)
  }

  /** A given hash is kept, a given secret is hashed, and otherwise a fresh secret is hashed. */
  function SecretHash(p: Platform, s: Loaded, c: ClientConfig): string {
    if c.clientId != "" && c.secretHash != "" then c.secretHash
    else if c.clientId != "" && c.secret != "" then p.bcrypt(c.secret)
    else p.bcrypt(p.uuid(s.next + 1))
  }

  function AddClient(p: Platform, s: Loaded, tid: Id, c: ClientConfig, now: Time): Option<Loaded> {
    match InsertClient(s.db, ClientId(p, s, c), Client(tid, SecretHash(p, s, c), c.name, c.redirectUris, now))
    case None => None
    case Some(db) => Some(s.(db := db, next := s.next + 2))
  }

  function AddClients(p: Platform, s: Loaded, tid: Id, clients: seq<ClientConfig>, now: Time): Option<Loaded> {
    if clients == [] then Some(s)
    else
      match AddClients(p, s, tid, clients[..|clients| - 1], now)
      case None => None
      case Some(t) => AddClient(p, t, tid, clients[|clients| - 1], now)
  }

  // --- Segments ---

  function AddSegment(p: Platform, s: Loaded, tid: Id, g: SegmentConfig, now: Time): Option<Loaded> {
    match InsertSegment(s.db, p.uuid(s.next), Segment(tid, g.name, g.description, now))
    case None => None
    case Some(db) => Some(s.(db := db, next := s.next + 1, segments := s.segments[g.name := p.uuid(s.next)]))
  }

  function AddSegments(p: Platform, s: Loaded, tid: Id, segments: seq<SegmentConfig>, now: Time): Option<Loaded> {
    if segments == [] then Some(s)
    else
      match AddSegments(p, s, tid, segments[..|segments| - 1], now)
      case None => None
      case Some(t) => AddSegment(p, t, tid, segments[|segments| - 1], now)
  }

  /** The ids of the names the import knows, in order; other names are dropped. */
  function Known(segments: map<string, Id>, names: seq<string>): seq<Id> {
    if names == [] then []
    else
      var n := |names| - 1;
      Known(segments, names[..n]) + if names[n] in segments then [segments[names[n]]] else []
  }

  // --- Contacts ---

  predicate ContactOk(p: Platform, c: ContactConfig) {
    p.validEmail(c.email) && NameOk(c.name)
  }

  const INVITE_TOKEN_TTL := 7 * 24 * 3600

  function Or<T>(given: Option<T>, default: T): T {
    if given.Some? then given.value else default
  }

  function NewContact(p: Platform, tid: Id, c: ContactConfig, next: nat, now: Time): Contact {
    if c.unsubscribed.Some? || c.consentAt.Some? || c.createdAt.Some? || c.inviteToken.Some? then
      Contact(tid, c.email, c.name, None, Or(c.unsubscribed, false), p.uuid(next + 1), c.inviteToken, None,
              c.consentSource, Or(c.consentAt, now), Or(c.createdAt, now))
    else
      Contact(tid, c.email, c.name, None, false, p.uuid(next + 1), Some(p.uuid(next + 2)), Some(now + INVITE_TOKEN_TTL),
              c.consentSource, now, now)
  }

  function JoinSegments(db: Tables, contact: Id, segments: seq<Id>): Option<Tables> {
    if segments == [] then Some(db)
    else
      match JoinSegments(db, contact, segments[..|segments| - 1])
      case None => None
      case Some(rest) => InsertContactSegment(rest, contact, segments[|segments| - 1])
  }

  function AddContact(p: Platform, s: Loaded, tid: Id, c: ContactConfig, now: Time): Option<Loaded> {
    if !ContactOk(p, c) then Some(s.(skipped := s.skipped + [c.email]))
    else
      match InsertContact(s.db, p.uuid(s.next), NewContact(p, tid, c, s.next, now))
      case None => None
      case Some(inserted) =>
        match JoinSegments(inserted, p.uuid(s.next), Known(s.segments, c.segments))
        case None => None
        case Some(db) => Some(s.(db := db, next := s.next + 3, contacts := s.contacts[c.email := p.uuid(s.next)]))
  }

  function AddContacts(p: Platform, s: Loaded, tid: Id, contacts: seq<ContactConfig>, now: Time): Option<Loaded> {
    if contacts == [] then Some(s)
    else
      match AddContacts(p, s, tid, contacts[..|contacts| - 1], now)
      case None => None
      case Some(t) => AddContact(p, t, tid, contacts[|contacts| - 1], now)
  }

  // --- Campaigns ---

  predicate StatusOk(status: string) {
    status == "draft" || status == "sending" || status == "sent" || status == "failed" || status == ""
  }

  predicate HasEmail(contacts: map<Id, Contact>, tid: Id, email: string, c: Id) {
    c in contacts && contacts[c].tenantId == tid && contacts[c].email == email
  }

  /** GetContactByEmail. */
  ghost function ContactByEmail(contacts: map<Id, Contact>, tid: Id, email: string): Option<Id> {
    if exists c :: HasEmail(contacts, tid, email, c) then
      var c :| HasEmail(contacts, tid, email, c);
      Some(c)
    else None
  }

  ghost function Resolved(s: Loaded, tid: Id, email: string): Option<Id> {
    if email in s.contacts then Some(s.contacts[email]) else ContactByEmail(s.db.contacts, tid, email)
  }

  ghost function AddRecipient(p: Platform, s: Loaded, tid: Id, campaign: Id, r: RecipientConfig): Option<Loaded> {
    match Resolved(s, tid, r.email)
    case None => None
    case Some(contact) =>
      match InsertRecipient(s.db, p.uuid(s.next),
                            Recipient(campaign, contact, r.status, r.errorMessage, r.sentAt, r.openedAt))
      case None => None
      case Some(db) => Some(s.(db := db, next := s.next + 1))
  }

  ghost function AddRecipients(p: Platform, s: Loaded, tid: Id, campaign: Id,
                               rows: seq<RecipientConfig>): Option<Loaded> {
    if rows == [] then Some(s)
    else
      match AddRecipients(p, s, tid, campaign, rows[..|rows| - 1])
      case None => None
      case Some(t) => AddRecipient(p, t, tid, campaign, rows[|rows| - 1])
  }

  /** An entry with a status or a time keeps them, and loses its attachment; another one becomes a new draft. */
  function NewCampaign(tid: Id, c: CampaignConfig, now: Time): Campaign {
    if Dated(c) then
      Campaign(tid, c.subject, c.htmlBody, c.fromName, c.fromEmail, "", if c.status == "" then "draft" else c.status,
               c.sentAt, Or(c.createdAt, now))
    else Campaign(tid, c.subject, c.htmlBody, c.fromName, c.fromEmail, c.attachmentUrl, "draft", None, now)
  }

  predicate Dated(c: CampaignConfig) {
    c.status != "" || c.sentAt.Some? || c.createdAt.Some?
  }

  ghost function AddCampaign(p: Platform, s: Loaded, tid: Id, c: CampaignConfig, now: Time): Option<Loaded> {
    if !StatusOk(c.status) then None
    else
      match Exec(s.db, CreateCampaign(p.uuid(s.next), NewCampaign(tid, c, now), Known(s.segments, c.segments)))
      case None => None
      case Some(db) =>
        var t := s.(db := db, next := s.next + 1);
        if Dated(c) then AddRecipients(p, t, tid, p.uuid(s.next), c.recipients) else Some(t)
  }

  ghost function AddCampaigns(p: Platform, s: Loaded, tid: Id, campaigns: seq<CampaignConfig>,
                              now: Time): Option<Loaded> {
    if campaigns == [] then Some(s)
    else
      match AddCampaigns(p, s, tid, campaigns[..|campaigns| - 1], now)
      case None => None
      case Some(t) => AddCampaign(p, t, tid, campaigns[|campaigns| - 1], now)
  }

  // --- The whole document ---

  function NewTenant(cfg: ImportConfig, now: Time): Tenant {
    Tenant(cfg.slug, cfg.name, cfg.registrationEnabled, Or(cfg.smtp, Smtp("", "", "", "", "", "", 0)), now)
  }

  predicate SlugTaken(db: Tables, slug: string) {
    exists t :: t in db.tenants && db.tenants[t].slug == slug
  }

  /** From an empty tenant to a full one; None when an entry is refused. */
  ghost function AddAll(p: Platform, s: Loaded, tid: Id, cfg: ImportConfig, now: Time): Option<Loaded> {
    var users := Merged(p, cfg.admin, cfg.users);
    if !UsersOk(p, users) || !ClientsOk(p, cfg.clients) then None
    else
      match AddUsers(p, s, tid, users, now)
      case None => None
      case Some(s) => match AddClients(p, s, tid, cfg.clients, now)
      case None => None
      case Some(s) => match AddSegments(p, s, tid, cfg.segments, now)
      case None => None
      case Some(s) => match AddContacts(p, s, tid, cfg.contacts, now)
      case None => None
      case Some(s) => AddCampaigns(p, s, tid, cfg.campaigns, now)
  }

  function WithEmptyTenant(p: Platform, db: Tables, cfg: ImportConfig, now: Time, next: nat): Loaded {
    Loaded(db.(tenants := db.tenants[p.uuid(next) := NewTenant(cfg, now)]), next + 1, map[], map[], [])
  }

  /** The import of a document whose slug is free. */
  ghost function Import(p: Platform, db: Tables, cfg: ImportConfig, now: Time, next: nat): Option<Loaded> {
    if !p.validSlug(cfg.slug) then None
    else AddAll(p, WithEmptyTenant(p, db, cfg, now, next), p.uuid(next), cfg, now)
  }
}

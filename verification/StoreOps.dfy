/** Every statement or transaction by which the stores change the tables, as one datatype of operations. */
module StoreOps {
  import opened Wrappers
  import opened Schema

  datatype Content = Content(subject: string, htmlBody: string, fromName: string, fromEmail: string,
                             attachmentUrl: string)

  datatype Op =
    // backend/tenant/tenant.go
    | CreateTenant(id: Id, tenant: Tenant)
    | RenameTenant(id: Id, name: string)
    | SetRegistration(id: Id, enabled: bool)
    | SetSmtp(id: Id, smtp: Smtp)
    | DeleteTenant(id: Id)
    // backend/iam/store.go
    | CreateUser(id: Id, user: User)
    | EditUser(tid: Id, id: Id, name: string, role: string)
    | SetPassword(tid: Id, id: Id, hash: string)
    | DeleteUser(tid: Id, id: Id)
    | CreateClient(id: Id, client: Client)
    | EditClient(tid: Id, id: Id, name: string, uris: seq<string>)
    | DeleteClient(tid: Id, id: Id)
    | CreateKey(id: Id, key: SigningKey)
    | CreateAuthCode(code: Id, authCode: AuthCode)
    | UseAuthCode(tid: Id, code: Id, now: Time)
    | CreateRefreshToken(token: Id, refresh: RefreshToken)
    | RevokeRefreshToken(tid: Id, token: Id)
    | Activate(tid: Id, contact: Id, userId: Id, user: User)
    | SetResetToken(tid: Id, id: Id, reset: ResetToken)
    | SpendResetToken(tid: Id, id: Id, token: Id, hash: string)
    // backend/marketing/store.go
    | CreateContact(id: Id, row: Contact)
    | EditContact(tid: Id, id: Id, name: string, email: string)
    | DeleteContact(tid: Id, id: Id)
    | Unsubscribe(tid: Id, token: Id)
    | CreateSegment(id: Id, segment: Segment)
    | EditSegment(tid: Id, id: Id, name: string, description: string)
    | DeleteSegment(tid: Id, id: Id)
    | AddToSegment(contact: Id, segmentId: Id)
    | RemoveFromSegment(contact: Id, segmentId: Id)
    | CreateCampaign(id: Id, campaign: Campaign, segments: seq<Id>)
    | EditCampaign(tid: Id, id: Id, content: Content, segments: seq<Id>)
    | DeleteCampaign(tid: Id, id: Id)
    | PrepareRecipients(tid: Id, id: Id, newIds: map<Id, Id>)
    | CreateRecipient(tid: Id, id: Id, recipient: Recipient)
    | SetRecipientStatus(id: Id, status: string, errorMessage: string, now: Time)
    | RecordOpen(id: Id, now: Time)
    | SetCampaignStatus(tid: Id, id: Id, status: string, now: Time)

  // --- Rows a statement's WHERE clause selects ---

  function Scoped(rows: map<Id, User>, tid: Id): set<Id> {
    set u | u in rows && rows[u].tenantId == tid
  }

  function CampaignsOf(db: Tables, tid: Id): set<Id> {
    set c | c in db.campaigns && db.campaigns[c].tenantId == tid
  }

  function ContactsOf(db: Tables, tid: Id): set<Id> {
    set c | c in db.contacts && db.contacts[c].tenantId == tid
  }

  function SegmentsOf(db: Tables, tid: Id): set<Id> {
    set s | s in db.segments && db.segments[s].tenantId == tid
  }

  /** One DELETE FROM <table> WHERE tenant_id = ? of the tenant cascade. */
  datatype TenantTable = CampaignTable | ContactTable | SegmentTable | AuthCodeTable | RefreshTokenTable | KeyTable
                       | ClientTable | UserTable

  function DeleteOwned(db: Tables, table: TenantTable, tid: Id): Option<Tables> {
    match table
    case CampaignTable => Some(DeleteCampaigns(db, CampaignsOf(db, tid)))
    case ContactTable => DeleteContacts(db, ContactsOf(db, tid))
    case SegmentTable => Some(DeleteSegments(db, SegmentsOf(db, tid)))
    case AuthCodeTable =>
      Some(db.(authCodes := (map k | k in db.authCodes && db.authCodes[k].tenantId != tid :: db.authCodes[k])))
    case RefreshTokenTable =>
      Some(db.(refreshTokens :=
                 (map k | k in db.refreshTokens && db.refreshTokens[k].tenantId != tid :: db.refreshTokens[k])))
    case KeyTable => Some(db.(keys := (map k | k in db.keys && db.keys[k].tenantId != tid :: db.keys[k])))
    case ClientTable =>
      Some(db.(clients := (map k | k in db.clients && db.clients[k].tenantId != tid :: db.clients[k])))
    case UserTable => DeleteUsers(db, Scoped(db.users, tid))
  }

  const CASCADE: seq<TenantTable> :=
    [CampaignTable, ContactTable, SegmentTable, AuthCodeTable, RefreshTokenTable, KeyTable, ClientTable, UserTable]

  function DeleteAllOwned(db: Tables, tables: seq<TenantTable>, tid: Id): Option<Tables> {
    if tables == [] then Some(db)
    else
      match DeleteAllOwned(db, tables[..|tables| - 1], tid)
      case None => None
      case Some(rest) => DeleteOwned(rest, tables[|tables| - 1], tid)
  }

  function InsertCampaignSegments(db: Tables, campaign: Id, segments: seq<Id>): (after: Option<Tables>)
    ensures after.Some? ==> after.value == db.(campaignSegments := after.value.campaignSegments)
  {
    if segments == [] then Some(db)
    else
      match InsertCampaignSegments(db, campaign, segments[..|segments| - 1])
      case None => None
      case Some(rest) => InsertCampaignSegment(rest, campaign, segments[|segments| - 1])
  }

  /** The subscribed contacts of the tenant in the union of the campaign's segments. */
  function Eligible(db: Tables, tid: Id, campaign: Id): set<Id> {
    set c | c in db.contacts && !db.contacts[c].unsubscribed && db.contacts[c].tenantId == tid
            && Targeted(db, campaign, c)
  }

  predicate Targeted(db: Tables, campaign: Id, contact: Id) {
    exists p :: p in db.contactSegments && p.0 == contact && (campaign, p.1) in db.campaignSegments
  }

  /** The eligible contacts that have no recipient row yet, which INSERT OR IGNORE therefore adds. */
  function Missing(db: Tables, tid: Id, campaign: Id): set<Id> {
    set c | c in Eligible(db, tid, campaign) && !HasRecipient(db, campaign, c)
  }

  const QUEUED := "queued"

  function NewRecipient(campaign: Id, contact: Id): Recipient {
    Recipient(campaign, contact, QUEUED, "", None, None)
  }

  /** newIds maps the fresh row ids to the eligible contacts they are made for, one each. */
  ghost predicate FreshRows(db: Tables, eligible: set<Id>, newIds: map<Id, Id>) {
    && newIds.Keys !! db.recipients.Keys
    && (forall r :: r in newIds ==> newIds[r] in eligible)
    && (forall c :: c in eligible ==> exists r :: r in newIds && newIds[r] == c)
    && (forall r, q :: r in newIds && q in newIds && r != q ==> newIds[r] != newIds[q])
  }

  function AddedRows(db: Tables, campaign: Id, newIds: map<Id, Id>): map<Id, Recipient> {
    map r | r in newIds && !HasRecipient(db, campaign, newIds[r]) :: NewRecipient(campaign, newIds[r])
  }

  function Prepared(db: Tables, campaign: Id, newIds: map<Id, Id>): Tables {
    db.(recipients := db.recipients + AddedRows(db, campaign, newIds))
  }

  function UpdatedCampaign(c: Campaign, content: Content): Campaign {
    c.(subject := content.subject, htmlBody := content.htmlBody, fromName := content.fromName,
       fromEmail := content.fromEmail, attachmentUrl := content.attachmentUrl)
  }

  function WithStatus(c: Campaign, status: string, now: Time): Campaign {
    if status == "sent" || status == "failed" then c.(status := status, sentAt := Some(now)) else c.(status := status)
  }

  function Marked(r: Recipient, status: string, errorMessage: string, now: Time): Recipient {
    r.(status := status, errorMessage := errorMessage, sentAt := if status == "sent" then Some(now) else None)
  }

  function Cleared(db: Tables, tid: Id, id: Id, content: Content): Tables {
    db.(campaigns := if id in CampaignsOf(db, tid) then db.campaigns[id := UpdatedCampaign(db.campaigns[id], content)]
                     else db.campaigns,
        campaignSegments := (set p | p in db.campaignSegments && p.0 != id))
  }

  predicate TenancyOp(op: Op) {
    op.CreateTenant? || op.RenameTenant? || op.SetRegistration? || op.SetSmtp? || op.DeleteTenant?
  }

  predicate UserOp(op: Op) {
    || op.CreateUser? || op.EditUser? || op.SetPassword? || op.DeleteUser? || op.Activate? || op.SetResetToken?
    || op.SpendResetToken?
  }

  predicate TokenOp(op: Op) {
    || op.CreateClient? || op.EditClient? || op.DeleteClient? || op.CreateKey? || op.CreateAuthCode?
    || op.UseAuthCode? || op.CreateRefreshToken? || op.RevokeRefreshToken?
  }

  predicate ContactOp(op: Op) {
    op.CreateContact? || op.EditContact? || op.DeleteContact? || op.Unsubscribe?
  }

  predicate SegmentOp(op: Op) {
    op.CreateSegment? || op.EditSegment? || op.DeleteSegment? || op.AddToSegment? || op.RemoveFromSegment?
  }

  predicate CampaignOp(op: Op) {
    op.CreateCampaign? || op.EditCampaign? || op.DeleteCampaign? || op.SetCampaignStatus?
  }

  predicate RecipientOp(op: Op) {
    op.PrepareRecipients? || op.CreateRecipient? || op.SetRecipientStatus? || op.RecordOpen?
  }

  function ExecTenancy(db: Tables, op: Op): Option<Tables>
    requires TenancyOp(op)
  {
    match op
    case CreateTenant(id, row) => InsertTenant(db, id, row)
    case RenameTenant(id, name) =>
      Some(if id in db.tenants then db.(tenants := db.tenants[id := db.tenants[id].(name := name)]) else db)
    case SetRegistration(id, enabled) =>
      Some(if id in db.tenants then db.(tenants := db.tenants[id := db.tenants[id].(registrationEnabled := enabled)])
           else db)
    case SetSmtp(id, smtp) =>
      Some(if id in db.tenants then db.(tenants := db.tenants[id := db.tenants[id].(smtp := smtp)]) else db)
    case DeleteTenant(id) =>
      (match DeleteAllOwned(db, CASCADE, id)
       case None => None
       case Some(rest) => if id in db.tenants then Some(rest.(tenants := rest.tenants - {id})) else None)
  }

  function ExecUser(db: Tables, op: Op): Option<Tables>
    requires UserOp(op)
  {
    match op
    case CreateUser(id, row) => InsertUser(db, id, row)
    case EditUser(tid, id, name, role) =>
      Some(if id in Scoped(db.users, tid) then
             var u := db.users[id];
             db.(users := db.users[id := u.(name := if name != "" then name else u.name,
                                            role := if role != "" then role else u.role)])
           else db)
    case SetPassword(tid, id, hash) =>
      Some(if id in Scoped(db.users, tid) then db.(users := db.users[id := db.users[id].(passwordHash := hash)])
           else db)
    case DeleteUser(tid, id) => DeleteUsers(db, {id} * Scoped(db.users, tid))
    case Activate(tid, contact, userId, row) =>
      (match InsertUser(db, userId, row)
       case None => None
       case Some(inserted) => Some(LinkContact(inserted, tid, contact, userId)))
    case SetResetToken(tid, id, reset) =>
      Some(if id in Scoped(db.users, tid) then db.(users := db.users[id := db.users[id].(reset := Some(reset))])
           else db)
    case SpendResetToken(tid, id, token, hash) =>
      Some(if ResetMatches(db, tid, id, token) then
             db.(users := db.users[id := db.users[id].(passwordHash := hash, reset := None)])
           else db)
  }

  function ExecToken(db: Tables, op: Op): Option<Tables>
    requires TokenOp(op)
  {
    match op
    case CreateClient(id, row) => InsertClient(db, id, row)
    case EditClient(tid, id, name, uris) =>
      Some(if id in db.clients && db.clients[id].tenantId == tid then
             var c := db.clients[id];
             db.(clients := db.clients[id := c.(name := if name != "" then name else c.name, redirectUris := uris)])
           else db)
    case DeleteClient(tid, id) =>
      Some(if id in db.clients && db.clients[id].tenantId == tid then db.(clients := db.clients - {id}) else db)
    case CreateKey(id, row) => if id in db.keys then None else Some(db.(keys := db.keys[id := row]))
    case CreateAuthCode(code, row) =>
      if code in db.authCodes then None else Some(db.(authCodes := db.authCodes[code := row]))
    case UseAuthCode(tid, code, now) =>
      Some(if CodeAccepted(db, tid, code, now) then
             db.(authCodes := db.authCodes[code := db.authCodes[code].(used := true)])
           else db)
    case CreateRefreshToken(token, row) =>
      if token in db.refreshTokens then None else Some(db.(refreshTokens := db.refreshTokens[token := row]))
    case RevokeRefreshToken(tid, token) =>
      Some(if token in db.refreshTokens && db.refreshTokens[token].tenantId == tid then
             db.(refreshTokens := db.refreshTokens[token := db.refreshTokens[token].(revoked := true)])
           else db)
  }

  function ExecContact(db: Tables, op: Op): Option<Tables>
    requires ContactOp(op)
  {
    match op
    case CreateContact(id, row) => InsertContact(db, id, row.(userId := None))
    case EditContact(tid, id, name, email) =>
      if id !in ContactsOf(db, tid) then Some(db)
      else
        var c := db.contacts[id];
        var edited := c.(name := if name != "" then name else c.name, email := if email != "" then email else c.email);
        if ContactClashes(db, Some(id), edited) then None else Some(db.(contacts := db.contacts[id := edited]))
    case DeleteContact(tid, id) => DeleteContacts(db, {id} * ContactsOf(db, tid))
    case Unsubscribe(tid, token) =>
      Some(db.(contacts := map c | c in db.contacts ::
                 if db.contacts[c].unsubscribeToken == token && db.contacts[c].tenantId == tid
                 then db.contacts[c].(unsubscribed := true) else db.contacts[c]))
  }

  function ExecSegment(db: Tables, op: Op): Option<Tables>
    requires SegmentOp(op)
  {
    match op
    case CreateSegment(id, row) => InsertSegment(db, id, row)
    case EditSegment(tid, id, name, description) =>
      if id !in SegmentsOf(db, tid) then Some(db)
      else if SegmentNameTaken(db, Some(id), tid, name) then None
      else Some(db.(segments := db.segments[id := db.segments[id].(name := name, description := description)]))
    case DeleteSegment(tid, id) => Some(DeleteSegments(db, {id} * SegmentsOf(db, tid)))
    case AddToSegment(contact, segment) => InsertContactSegment(db, contact, segment)
    case RemoveFromSegment(contact, segment) => Some(db.(contactSegments := db.contactSegments - {(contact, segment)}))
  }

  function ExecCampaign(db: Tables, op: Op): Option<Tables>
    requires CampaignOp(op)
  {
    match op
    case CreateCampaign(id, row, segments) =>
      (match InsertCampaign(db, id, row)
       case None => None
       case Some(inserted) => InsertCampaignSegments(inserted, id, segments))
    case EditCampaign(tid, id, content, segments) =>
      InsertCampaignSegments(Cleared(db, tid, id, content), id, segments)
    case DeleteCampaign(tid, id) => Some(DeleteCampaigns(db, {id} * CampaignsOf(db, tid)))
    case SetCampaignStatus(tid, id, status, now) =>
      Some(if id in CampaignsOf(db, tid) then
             db.(campaigns := db.campaigns[id := WithStatus(db.campaigns[id], status, now)])
           else db)
  }

  function ExecRecipient(db: Tables, op: Op): Option<Tables>
    requires RecipientOp(op)
  {
    match op
    case PrepareRecipients(tid, id, newIds) =>
      if newIds.Keys !! db.recipients.Keys && (id in db.campaigns || AddedRows(db, id, newIds) == map[])
      then Some(Prepared(db, id, newIds)) else None
    case CreateRecipient(tid, id, row) => InsertRecipient(db, id, row)
    case SetRecipientStatus(id, status, errorMessage, now) =>
      Some(if id in db.recipients then
             db.(recipients := db.recipients[id := Marked(db.recipients[id], status, errorMessage, now)])
           else db)
    case RecordOpen(id, now) =>
      Some(if id in db.recipients && db.recipients[id].openedAt.None? then
             db.(recipients := db.recipients[id := db.recipients[id].(openedAt := Some(now))])
           else db)
  }

  /** The tables after the operation; None when a constraint refuses it and the tables stay as they are. */
  function Exec(db: Tables, op: Op): Option<Tables> {
    if TenancyOp(op) then ExecTenancy(db, op)
    else if UserOp(op) then ExecUser(db, op)
    else if TokenOp(op) then ExecToken(db, op)
    else if ContactOp(op) then ExecContact(db, op)
    else if SegmentOp(op) then ExecSegment(db, op)
    else if CampaignOp(op) then ExecCampaign(db, op)
    else ExecRecipient(db, op)
  }

  predicate CodeAccepted(db: Tables, tid: Id, code: Id, now: Time) {
    && code in db.authCodes && db.authCodes[code].tenantId == tid
    && !db.authCodes[code].used && db.authCodes[code].expiresAt > now
  }

  predicate ResetMatches(db: Tables, tid: Id, id: Id, token: Id) {
    && id in Scoped(db.users, tid)
    && db.users[id].reset.Some? && db.users[id].reset.value.token == token
  }

  function LinkContact(db: Tables, tid: Id, contact: Id, userId: Id): Tables {
    if contact in ContactsOf(db, tid) then
      db.(contacts := db.contacts[contact := db.contacts[contact].(userId := Some(userId), inviteToken := None)])
    else db
  }

  /** The tables after an operation, refused or not. */
  function After(db: Tables, op: Op): Tables {
    match Exec(db, op)
    case None => db
    case Some(rest) => rest
  }

  /**
   * What the code around a statement has established: the worker prepares recipients of the contacts it selected for a
   * campaign of its own tenant, the import adds recipients between a campaign and a contact it found in its own tenant,
   * and an activation creates its user in the tenant of its contact.
   */
  ghost predicate InContext(db: Tables, op: Op) {
    match op
    case PrepareRecipients(tid, id, newIds) =>
      && FreshRows(db, Eligible(db, tid, id), newIds)
      && (id in db.campaigns ==> db.campaigns[id].tenantId == tid)
    case CreateRecipient(tid, _, row) =>
      && (row.campaignId in db.campaigns ==> db.campaigns[row.campaignId].tenantId == tid)
      && (row.contactId in db.contacts ==> db.contacts[row.contactId].tenantId == tid)
    case Activate(tid, _, _, row) => row.tenantId == tid
    case _ => true
  }

  ghost predicate Sound(db: Tables) {
    ForeignKeys(db) && Uniques(db) && TenantLocal(db)
  }
}

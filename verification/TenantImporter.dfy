/** ImportTenantConfig itself: the loops of backend/tenant/export_import.go, each shown to add what its entries add. */
module TenantImporter {
  import opened Wrappers
  import opened Schema
  import opened StoreOps
  import opened StoreInvariants
  import opened TenantStore
  import opened TenantViews
  import opened TenantConfig
  import opened TenantImport
  import opened ImportPeople
  import opened ImportMeaning

  datatype ImportResult = Done(tenantId: Id, skipped: seq<string>) | Skipped(tenantId: Id) | Refused

  // --- A refused entry refuses the list ---

  lemma {:induction false} UsersRefused(p: Platform, s: Loaded, tid: Id, users: seq<UserConfig>, now: Time, i: nat)
    requires i <= |users| && AddUsers(p, s, tid, users[..i], now).None?
    ensures AddUsers(p, s, tid, users, now).None?
    decreases |users| - i
  {
    hide AddUser;
    if i < |users| {
      assert users[..i + 1][..i] == users[..i];
      UsersRefused(p, s, tid, users, now, i + 1);
    } else {
      assert users[..i] == users;
    }
  }

  lemma {:induction false} ClientsRefused(p: Platform, s: Loaded, tid: Id, clients: seq<ClientConfig>, now: Time,
                                          i: nat)
    requires i <= |clients| && AddClients(p, s, tid, clients[..i], now).None?
    ensures AddClients(p, s, tid, clients, now).None?
    decreases |clients| - i
  {
    hide AddClient;
    if i < |clients| {
      assert clients[..i + 1][..i] == clients[..i];
      ClientsRefused(p, s, tid, clients, now, i + 1);
    } else {
      assert clients[..i] == clients;
    }
  }

  lemma {:induction false} SegmentsRefused(p: Platform, s: Loaded, tid: Id, segments: seq<SegmentConfig>, now: Time,
                                           i: nat)
    requires i <= |segments| && AddSegments(p, s, tid, segments[..i], now).None?
    ensures AddSegments(p, s, tid, segments, now).None?
    decreases |segments| - i
  {
    hide AddSegment;
    if i < |segments| {
      assert segments[..i + 1][..i] == segments[..i];
      SegmentsRefused(p, s, tid, segments, now, i + 1);
    } else {
      assert segments[..i] == segments;
    }
  }

  lemma {:induction false} ContactsRefused(p: Platform, s: Loaded, tid: Id, contacts: seq<ContactConfig>, now: Time,
                                           i: nat)
    requires i <= |contacts| && AddContacts(p, s, tid, contacts[..i], now).None?
    ensures AddContacts(p, s, tid, contacts, now).None?
    decreases |contacts| - i
  {
    hide AddContact;
    if i < |contacts| {
      assert contacts[..i + 1][..i] == contacts[..i];
      ContactsRefused(p, s, tid, contacts, now, i + 1);
    } else {
      assert contacts[..i] == contacts;
    }
  }

  lemma {:induction false} JoinRefused(db: Tables, contact: Id, segments: seq<Id>, more: seq<Id>)
    requires JoinSegments(db, contact, segments).None?
    ensures JoinSegments(db, contact, segments + more).None?
  {
    if more == [] {
      assert segments + more == segments;
    } else {
      var n := |more| - 1;
      JoinRefused(db, contact, segments, more[..n]);
      assert (segments + more)[..|segments| + n] == segments + more[..n];
    }
  }

  lemma {:induction false} RecipientsRefused(p: Platform, s: Loaded, tid: Id, campaign: Id,
                                             rows: seq<RecipientConfig>, i: nat)
    requires i <= |rows| && AddRecipients(p, s, tid, campaign, rows[..i]).None?
    ensures AddRecipients(p, s, tid, campaign, rows).None?
    decreases |rows| - i
  {
    hide AddRecipient;
    if i < |rows| {
      assert rows[..i + 1][..i] == rows[..i];
      RecipientsRefused(p, s, tid, campaign, rows, i + 1);
    } else {
      assert rows[..i] == rows;
    }
  }

  lemma {:induction false} CampaignsRefused(p: Platform, s: Loaded, tid: Id, campaigns: seq<CampaignConfig>,
                                            now: Time, i: nat)
    requires i <= |campaigns| && AddCampaigns(p, s, tid, campaigns[..i], now).None?
    ensures AddCampaigns(p, s, tid, campaigns, now).None?
    decreases |campaigns| - i
  {
    hide AddCampaign;
    if i < |campaigns| {
      assert campaigns[..i + 1][..i] == campaigns[..i];
      CampaignsRefused(p, s, tid, campaigns, now, i + 1);
    } else {
      assert campaigns[..i] == campaigns;
    }
  }

  // --- Users ---

  /** An existing user is made an admin and keeps its password; otherwise one is created. */
  method SeedAdmin(db: Database, tid: Id, email: string, hash: string, name: string, id: Id,
                   now: Time) returns (ok: bool)
    modifies db
    ensures EmailTaken(old(db.tables), tid, email) ==>
      && ok && exists u :: u in Scoped(old(db.tables).users, tid) && old(db.tables).users[u].email == email
                           && db.tables == old(db.tables).(users :=
                                old(db.tables).users[u := old(db.tables).users[u].(role := "admin")])
    ensures !EmailTaken(old(db.tables), tid, email) ==>
      var inserted := InsertUser(old(db.tables), id, User(tid, email, hash, name, ADMIN, now, None));
      ok == inserted.Some? && db.tables == if ok then inserted.value else old(db.tables)
  {
    hide ExecTenancy, ExecToken, ExecContact, ExecSegment, ExecCampaign, ExecRecipient;
    if u :| u in db.tables.users && db.tables.users[u].tenantId == tid && db.tables.users[u].email == email {
      assert u in Scoped(db.tables.users, tid);
      db.tables := After(db.tables, EditUser(tid, u, "", ADMIN));
      return true;
    }
    var inserted := InsertUser(db.tables, id, User(tid, email, hash, name, ADMIN, now, None));
    if inserted.Some? {
      db.tables := inserted.value;
    }
    return inserted.Some?;
  }

  /** CreateUser makes the role "user"; the import then turns it into "member". */
  method CreateMember(db: Database, tid: Id, email: string, hash: string, name: string, id: Id,
                      now: Time) returns (ok: bool)
    modifies db
    ensures
      var inserted := InsertUser(old(db.tables), id, User(tid, email, hash, name, MEMBER, now, None));
      ok == inserted.Some? && db.tables == if ok then inserted.value else old(db.tables)
  {
    var created := InsertUser(db.tables, id, User(tid, email, hash, name, "user", now, None));
    if created.None? {
      return false;
    }
    db.tables := created.value;
    db.tables := After(db.tables, EditUser(tid, id, "", MEMBER));
    return true;
  }

  /** One entry; the email must be free, as it is after ValidateUsers, or SeedAdmin would promote whoever has it. */
  method ImportUser(db: Database, p: Platform, tid: Id, u: UserConfig, id: Id, now: Time) returns (ok: bool)
    requires !EmailTaken(db.tables, tid, u.email)
    modifies db
    ensures
      var inserted := InsertUser(old(db.tables), id, NewUser(p, tid, u, now));
      ok == inserted.Some? && db.tables == if ok then inserted.value else old(db.tables)
  {
    hide EmailTaken;
    if u.passwordHash != "" {
      var inserted := InsertUser(db.tables, id, User(tid, u.email, u.passwordHash, u.name, u.role, now, None));
      ok := inserted.Some?;
      db.tables := if ok then inserted.value else db.tables;
    } else if u.role == ADMIN {
      ok := SeedAdmin(db, tid, u.email, p.bcrypt(u.password), u.name, id, now);
    } else {
      ok := CreateMember(db, tid, u.email, p.bcrypt(u.password), u.name, id, now);
    }
  }

  method ImportUsers(db: Database, p: Platform, tid: Id, users: seq<UserConfig>, now: Time, start: nat)
    returns (ok: bool, next: nat)
    requires Fresh(p, start, db.tables) && UsersView(db.tables.users, tid) == {} && UsersOk(p, users)
    modifies db
    ensures db.tables.contacts == old(db.tables).contacts
    ensures ok ==> HasUsers(p, db.tables.users, tid, users, now) && UsersKept(old(db.tables).users, db.tables.users)
    ensures
      var added := AddUsers(p, Loaded(old(db.tables), start, map[], map[], []), tid, users, now);
      ok == added.Some? && (ok ==> added.value == Loaded(db.tables, next, map[], map[], []))
  {
    hide Fresh, UsersView, UsersOk, EmailTaken, NewUser, HasUsers, UsersKept;
    ghost var s := Loaded(db.tables, start, map[], map[], []);
    next := start;
    for i := 0 to |users|
      invariant db.tables.contacts == s.db.contacts
      invariant AddUsers(p, s, tid, users[..i], now) == Some(Loaded(db.tables, next, map[], map[], []))
    {
      assert users[..i + 1][..i] == users[..i];
      NextEmailFree(p, s, tid, users, now, i);
      ok := ImportUser(db, p, tid, users[i], p.uuid(next), now);
      if !ok {
        UsersRefused(p, s, tid, users, now, i + 1);
        return false, next;
      }
      next := next + 1;
    }
    assert users[..|users|] == users;
    hide AddUsers;
    UsersWillBeHad(p, s, tid, users, now);
    ok := true;
  }

  ghost predicate UsersKept(before: map<Id, User>, after: map<Id, User>) {
    forall k :: k in before ==> k in after && after[k] == before[k]
  }

  lemma UsersWillBeHad(p: Platform, s: Loaded, tid: Id, users: seq<UserConfig>, now: Time)
    requires Fresh(p, s.next, s.db) && UsersView(s.db.users, tid) == {} && UsersOk(p, users)
    ensures AddUsers(p, s, tid, users, now).Some?
    ensures
      var after := AddUsers(p, s, tid, users, now).value.db.users;
      HasUsers(p, after, tid, users, now) && UsersKept(s.db.users, after)
  {
    EmailsDiffer(p, users);
    hide Fresh, UsersView, UsersOk, HasUsers, UserRows;
    UsersAdded(p, s, tid, users, now);
    var after := AddUsers(p, s, tid, users, now).value.db.users;
    UsersAreHad(p, s.db.users, after, s.next, tid, users, now);
    OldUsersStay(p, s.db.users, after, s.next, tid, users, now);
  }

  lemma NextEmailFree(p: Platform, s: Loaded, tid: Id, users: seq<UserConfig>, now: Time, i: nat)
    requires Fresh(p, s.next, s.db) && UsersView(s.db.users, tid) == {} && UsersOk(p, users) && i < |users|
    requires AddUsers(p, s, tid, users[..i], now).Some?
    ensures !EmailTaken(AddUsers(p, s, tid, users[..i], now).value.db, tid, users[i].email)
  {
    hide Fresh, UsersView, UserRows;
    UsersAdded(p, s, tid, users[..i], now);
    var t := AddUsers(p, s, tid, users[..i], now).value;
    EmailStillFree(p, s.db, t.db, s.next, tid, users[..i], now, users[i].email);
  }

  // --- Clients and segments ---

  method ClientsPass(p: Platform, clients: seq<ClientConfig>) returns (ok: bool)
    ensures ok <==> ClientsOk(p, clients)
  {
    for i := 0 to |clients|
      invariant forall k :: 0 <= k < i ==> ClientOk(p, clients[k])
    {
      if !ClientOk(p, clients[i]) {
        return false;
      }
    }
    return true;
  }

  method ImportClients(db: Database, p: Platform, tid: Id, clients: seq<ClientConfig>, now: Time, start: nat)
    returns (ok: bool, next: nat)
    modifies db
    ensures db.tables.contacts == old(db.tables).contacts
    ensures
      var added := AddClients(p, Loaded(old(db.tables), start, map[], map[], []), tid, clients, now);
      ok == added.Some? && (ok ==> added.value == Loaded(db.tables, next, map[], map[], []))
  {
    ghost var s := Loaded(db.tables, start, map[], map[], []);
    next := start;
    for i := 0 to |clients|
      invariant db.tables.contacts == s.db.contacts
      invariant AddClients(p, s, tid, clients[..i], now) == Some(Loaded(db.tables, next, map[], map[], []))
    {
      var c := clients[i];
      assert clients[..i + 1][..i] == clients[..i];
      var id, hash;
      if c.clientId != "" && c.secretHash != "" {
        id, hash := c.clientId, c.secretHash;
      } else if c.clientId != "" && c.secret != "" {
        id, hash := c.clientId, p.bcrypt(c.secret);
      } else if c.clientId != "" {
        id, hash := c.clientId, p.bcrypt(p.uuid(next + 1));
      } else {
        id, hash := p.uuid(next), p.bcrypt(p.uuid(next + 1));
      }
      var inserted := InsertClient(db.tables, id, Client(tid, hash, c.name, c.redirectUris, now));
      if inserted.None? {
        ClientsRefused(p, s, tid, clients, now, i + 1);
        return false, next;
      }
      db.tables, next := inserted.value, next + 2;
    }
    assert clients[..|clients|] == clients;
    ok := true;
  }

  method ImportSegments(db: Database, p: Platform, tid: Id, segments: seq<SegmentConfig>, now: Time, start: nat)
    returns (ok: bool, next: nat, segmentMap: map<string, Id>)
    modifies db
    ensures db.tables.contacts == old(db.tables).contacts
    ensures
      var added := AddSegments(p, Loaded(old(db.tables), start, map[], map[], []), tid, segments, now);
      ok == added.Some? && (ok ==> added.value == Loaded(db.tables, next, segmentMap, map[], []))
  {
    ghost var s := Loaded(db.tables, start, map[], map[], []);
    next, segmentMap := start, map[];
    for i := 0 to |segments|
      invariant db.tables.contacts == s.db.contacts
      invariant AddSegments(p, s, tid, segments[..i], now) == Some(Loaded(db.tables, next, segmentMap, map[], []))
    {
      var g, id := segments[i], p.uuid(next);
      assert segments[..i + 1][..i] == segments[..i];
      var inserted := InsertSegment(db.tables, id, Segment(tid, g.name, g.description, now));
      if inserted.None? {
        SegmentsRefused(p, s, tid, segments, now, i + 1);
        return false, next, segmentMap;
      }
      db.tables, next, segmentMap := inserted.value, next + 1, segmentMap[g.name := id];
    }
    assert segments[..|segments|] == segments;
    ok := true;
  }

  // --- Contacts ---

  lemma {:induction false} KnownSplits(segments: map<string, Id>, names: seq<string>, i: nat)
    requires i <= |names|
    ensures exists more :: Known(segments, names) == Known(segments, names[..i]) + more
  {
    if i == |names| {
      assert names[..i] == names;
      assert Known(segments, names) == Known(segments, names[..i]) + [];
    } else {
      var n := |names| - 1;
      KnownSplits(segments, names[..n], i);
      assert names[..n][..i] == names[..i];
      var more :| Known(segments, names[..n]) == Known(segments, names[..i]) + more;
      var last := if names[n] in segments then [segments[names[n]]] else [];
      assert Known(segments, names) == Known(segments, names[..i]) + (more + last);
    }
  }

  lemma KnownOne(segments: map<string, Id>, names: seq<string>, i: nat)
    requires i < |names|
    ensures Known(segments, names[..i + 1])
         == Known(segments, names[..i]) + if names[i] in segments then [segments[names[i]]] else []
  {
    assert names[..i + 1][..i] == names[..i];
  }

  lemma JoinOne(db: Tables, contact: Id, segments: seq<Id>, g: Id, joined: Tables)
    requires JoinSegments(db, contact, segments) == Some(joined)
    ensures JoinSegments(db, contact, segments + [g]) == InsertContactSegment(joined, contact, g)
    ensures InsertContactSegment(joined, contact, g).Some? ==>
      InsertContactSegment(joined, contact, g).value.contacts == joined.contacts
  {
    assert (segments + [g])[..|segments|] == segments;
  }

  /** AddContactToSegment for every name the map knows. */
  method JoinNamed(db: Database, contact: Id, names: seq<string>, segmentMap: map<string, Id>) returns (ok: bool)
    modifies db
    ensures db.tables.contacts == old(db.tables).contacts
    ensures
      var joined := JoinSegments(old(db.tables), contact, Known(segmentMap, names));
      ok == joined.Some? && (ok ==> db.tables == joined.value)
  {
    assert names[..0] == [] && Known(segmentMap, []) == [];
    hide Known, InsertContactSegment;
    ghost var was := db.tables;
    for i := 0 to |names|
      invariant JoinSegments(was, contact, Known(segmentMap, names[..i])) == Some(db.tables)
      invariant db.tables.contacts == was.contacts
    {
      KnownOne(segmentMap, names, i);
      if names[i] in segmentMap {
        JoinOne(was, contact, Known(segmentMap, names[..i]), segmentMap[names[i]], db.tables);
        hide JoinSegments;
        var joined := InsertContactSegment(db.tables, contact, segmentMap[names[i]]);
        if joined.None? {
          KnownSplits(segmentMap, names, i + 1);
          ghost var more :| Known(segmentMap, names) == Known(segmentMap, names[..i + 1]) + more;
          JoinRefused(was, contact, Known(segmentMap, names[..i + 1]), more);
          return false;
        }
        db.tables := joined.value;
      } else {
        assert Known(segmentMap, names[..i]) + [] == Known(segmentMap, names[..i]);
      }
    }
    assert names[..|names|] == names;
    ok := true;
  }

  method ImportContacts(db: Database, p: Platform, tid: Id, contacts: seq<ContactConfig>, now: Time, start: nat,
                        segmentMap: map<string, Id>)
    returns (ok: bool, next: nat, contactEmailToId: map<string, Id>, skipped: seq<string>)
    requires UniqueContacts(db.tables.contacts)
    modifies db
    ensures UniqueContacts(db.tables.contacts)
    ensures
      var added := AddContacts(p, Loaded(old(db.tables), start, segmentMap, map[], []), tid, contacts, now);
      ok == added.Some? && (ok ==> added.value == Loaded(db.tables, next, segmentMap, contactEmailToId, skipped))
  {
    hide Known, JoinSegments, InsertContact, NewContact, UniqueContacts;
    ghost var s := Loaded(db.tables, start, segmentMap, map[], []);
    next, contactEmailToId, skipped := start, map[], [];
    for i := 0 to |contacts|
      invariant AddContacts(p, s, tid, contacts[..i], now)
             == Some(Loaded(db.tables, next, segmentMap, contactEmailToId, skipped))
      invariant UniqueContacts(db.tables.contacts)
    {
      var c, id := contacts[i], p.uuid(next);
      assert contacts[..i + 1][..i] == contacts[..i];
      if !ContactOk(p, c) {
        skipped := skipped + [c.email];
        continue;
      }
      var inserted := InsertContact(db.tables, id, NewContact(p, tid, c, next, now));
      ok := inserted.Some?;
      if ok {
        InsertKeepsUnique(db.tables, id, NewContact(p, tid, c, next, now));
        db.tables := inserted.value;
        ok := JoinNamed(db, id, c.segments, segmentMap);
      }
      if !ok {
        ContactsRefused(p, s, tid, contacts, now, i + 1);
        return false, next, contactEmailToId, skipped;
      }
      next, contactEmailToId := next + 3, contactEmailToId[c.email := id];
    }
    assert contacts[..|contacts|] == contacts;
    ok := true;
  }

  lemma InsertKeepsUnique(db: Tables, id: Id, row: Contact)
    requires UniqueContacts(db.contacts) && InsertContact(db, id, row).Some?
    ensures UniqueContacts(InsertContact(db, id, row).value.contacts)
  {
    UniqueContactsPut(db.contacts, id, row);
  }

  // --- Campaigns ---

  method GetContactByEmail(contacts: map<Id, Contact>, tid: Id, email: string) returns (found: Option<Id>)
    requires UniqueContacts(contacts)
    ensures found == ContactByEmail(contacts, tid, email)
  {
    if c :| c in contacts && HasEmail(contacts, tid, email, c) {
      forall d | HasEmail(contacts, tid, email, d)
        ensures d == c
      {
        assert Clash(contacts[c], contacts[d]);
      }
      return Some(c);
    }
    assert forall c :: !HasEmail(contacts, tid, email, c);
    return None;
  }

  method ImportRecipients(db: Database, p: Platform, tid: Id, campaign: Id, rows: seq<RecipientConfig>, start: nat,
                          segmentMap: map<string, Id>, contactEmailToId: map<string, Id>, ghost skipped: seq<string>)
    returns (ok: bool, next: nat)
    requires UniqueContacts(db.tables.contacts)
    modifies db
    ensures db.tables.contacts == old(db.tables).contacts
    ensures
      var added := AddRecipients(p, Loaded(old(db.tables), start, segmentMap, contactEmailToId, skipped), tid,
                                 campaign, rows);
      ok == added.Some? && (ok ==> added.value == Loaded(db.tables, next, segmentMap, contactEmailToId, skipped))
  {
    hide UniqueContacts, ContactByEmail, InsertRecipient;
    ghost var s := Loaded(db.tables, start, segmentMap, contactEmailToId, skipped);
    next := start;
    assert rows[..0] == [];
    for i := 0 to |rows|
      invariant db.tables.contacts == s.db.contacts
      invariant AddRecipients(p, s, tid, campaign, rows[..i])
             == Some(Loaded(db.tables, next, segmentMap, contactEmailToId, skipped))
    {
      assert rows[..i + 1][..i] == rows[..i];
      ok := ImportRecipient(db, p, tid, campaign, rows[i], next, segmentMap, contactEmailToId, skipped);
      hide AddRecipient;
      if !ok {
        RecipientsRefused(p, s, tid, campaign, rows, i + 1);
        return false, next;
      }
      next := next + 1;
    }
    assert rows[..|rows|] == rows;
    ok := true;
  }

  /** One recipient: its contact by the map of the import, or else by its email. */
  method ImportRecipient(db: Database, p: Platform, tid: Id, campaign: Id, r: RecipientConfig, next: nat,
                         segmentMap: map<string, Id>, contactEmailToId: map<string, Id>, ghost skipped: seq<string>)
    returns (ok: bool)
    requires UniqueContacts(db.tables.contacts)
    modifies db
    ensures db.tables.contacts == old(db.tables).contacts
    ensures
      var s := Loaded(old(db.tables), next, segmentMap, contactEmailToId, skipped);
      var added := AddRecipient(p, s, tid, campaign, r);
      ok == added.Some? && (ok ==> added.value == Loaded(db.tables, next + 1, segmentMap, contactEmailToId, skipped))
  {
    hide UniqueContacts, ContactByEmail, InsertRecipient;
    var contact: Option<Id>;
    if r.email in contactEmailToId {
      contact := Some(contactEmailToId[r.email]);
    } else {
      contact := GetContactByEmail(db.tables.contacts, tid, r.email);
    }
    if contact.None? {
      return false;
    }
    var row := Recipient(campaign, contact.value, r.status, r.errorMessage, r.sentAt, r.openedAt);
    RecipientKeepsContacts(db.tables, p.uuid(next), row);
    var inserted := InsertRecipient(db.tables, p.uuid(next), row);
    if inserted.None? {
      return false;
    }
    db.tables := inserted.value;
    return true;
  }

  lemma RecipientKeepsContacts(db: Tables, id: Id, row: Recipient)
    ensures InsertRecipient(db, id, row).Some? ==> InsertRecipient(db, id, row).value.contacts == db.contacts
  {
  }

  lemma CampaignKeepsContacts(db: Tables, id: Id, row: Campaign, segments: seq<Id>)
    ensures
      var created := Exec(db, CreateCampaign(id, row, segments));
      created.Some? ==> created.value.contacts == db.contacts
  {
    hide ExecTenancy, ExecUser, ExecToken, ExecContact, ExecSegment, ExecRecipient;
  }

  method ImportCampaigns(db: Database, p: Platform, tid: Id, campaigns: seq<CampaignConfig>, now: Time, start: nat,
                         segmentMap: map<string, Id>, contactEmailToId: map<string, Id>, ghost skipped: seq<string>)
    returns (ok: bool, next: nat)
    requires UniqueContacts(db.tables.contacts)
    modifies db
    ensures
      var added := AddCampaigns(p, Loaded(old(db.tables), start, segmentMap, contactEmailToId, skipped), tid,
                                campaigns, now);
      ok == added.Some? && (ok ==> added.value == Loaded(db.tables, next, segmentMap, contactEmailToId, skipped))
  {
    hide UniqueContacts, Exec, NewCampaign, AddRecipients;
    ghost var s := Loaded(db.tables, start, segmentMap, contactEmailToId, skipped);
    next := start;
    for i := 0 to |campaigns|
      invariant UniqueContacts(db.tables.contacts)
      invariant AddCampaigns(p, s, tid, campaigns[..i], now)
             == Some(Loaded(db.tables, next, segmentMap, contactEmailToId, skipped))
    {
      var c, id := campaigns[i], p.uuid(next);
      assert campaigns[..i + 1][..i] == campaigns[..i];
      ok := StatusOk(c.status);
      if ok {
        var segIds := KnownIds(segmentMap, c.segments);
        CampaignKeepsContacts(db.tables, id, NewCampaign(tid, c, now), segIds);
        var created := Exec(db.tables, CreateCampaign(id, NewCampaign(tid, c, now), segIds));
        ok := created.Some?;
        if ok {
          db.tables, next := created.value, next + 1;
          if Dated(c) {
            ok, next := ImportRecipients(db, p, tid, id, c.recipients, next, segmentMap, contactEmailToId, skipped);
          }
        }
      }
      if !ok {
        CampaignsRefused(p, s, tid, campaigns, now, i + 1);
        return false, next;
      }
    }
    assert campaigns[..|campaigns|] == campaigns;
    ok := true;
  }

  method KnownIds(segmentMap: map<string, Id>, names: seq<string>) returns (ids: seq<Id>)
    ensures ids == Known(segmentMap, names)
  {
    ids := [];
    for i := 0 to |names|
      invariant ids == Known(segmentMap, names[..i])
    {
      assert names[..i + 1][..i] == names[..i];
      if names[i] in segmentMap {
        ids := ids + [segmentMap[names[i]]];
      }
    }
    assert names[..|names|] == names;
  }

  // --- The whole import ---

  /** CreateWithSMTP, and the registration flag if it is set. */
  method CreateTenant(db: Database, p: Platform, cfg: ImportConfig, now: Time, start: nat)
    requires Fresh(p, start, db.tables) && !SlugTaken(db.tables, cfg.slug)
    modifies db
    ensures db.tables == WithEmptyTenant(p, old(db.tables), cfg, now, start).db
  {
    var id := p.uuid(start);
    assert id !in db.tables.tenants;
    hide Fresh;
    hide ExecUser, ExecToken, ExecContact, ExecSegment, ExecCampaign, ExecRecipient, DeleteAllOwned;
    var row := NewTenant(cfg, now).(registrationEnabled := false);
    db.tables := After(db.tables, Op.CreateTenant(id, row));
    if cfg.registrationEnabled {
      db.tables := After(db.tables, SetRegistration(id, true));
    }
  }

  /** The loops, in order; the first refused entry ends the import. */
  method ImportEntries(db: Database, p: Platform, tid: Id, cfg: ImportConfig, now: Time, start: nat)
    returns (ok: bool, next: nat, skipped: seq<string>)
    requires Fresh(p, start, db.tables) && UsersView(db.tables.users, tid) == {} && UniqueContacts(db.tables.contacts)
    modifies db
    ensures
      var added := AddAll(p, Loaded(old(db.tables), start, map[], map[], []), tid, cfg, now);
      && ok == added.Some?
      && (ok ==> db.tables == added.value.db && next == added.value.next && skipped == added.value.skipped)
  {
    hide Fresh, UsersView, UniqueContacts, Merged, UsersOk, ClientsOk;
    hide AddUsers, AddClients, AddSegments, AddContacts, AddCampaigns;
    next, skipped := start, [];
    var segmentMap, contactEmailToId;
    var given := new UserConfig[|cfg.users|](i requires 0 <= i < |cfg.users| => cfg.users[i]);
    assert given[..] == cfg.users;
    var merged := MergeAdminAndUsers(p, cfg.admin, given);
    var users := merged[..];
    ok := ValidateUsers(p, users);
    if !ok {
      return;
    }
    ok, next := ImportUsers(db, p, tid, users, now, next);
    if !ok {
      return;
    }
    ok := ClientsPass(p, cfg.clients);
    if !ok {
      return;
    }
    ok, next := ImportClients(db, p, tid, cfg.clients, now, next);
    if !ok {
      return;
    }
    ok, next, segmentMap := ImportSegments(db, p, tid, cfg.segments, now, next);
    if !ok {
      return;
    }
    ok, next, contactEmailToId, skipped := ImportContacts(db, p, tid, cfg.contacts, now, next, segmentMap);
    if !ok {
      return;
    }
    ok, next := ImportCampaigns(db, p, tid, cfg.campaigns, now, next, segmentMap, contactEmailToId, skipped);
  }

  /** The row of an entry: its email, name and role, and its hash or that of its password. */
  predicate StoredUser(p: Platform, row: User, tid: Id, u: UserConfig, now: Time) {
    && row.tenantId == tid && row.email == u.email && row.name == u.name && row.role == u.role
    && row.passwordHash == (if u.passwordHash != "" then u.passwordHash else p.bcrypt(u.password))
    && row.createdAt == now && row.reset == None
  }

  ghost predicate EntryHasRow(p: Platform, users: map<Id, User>, tid: Id, entry: UserConfig, now: Time) {
    exists k :: k in users && StoredUser(p, users[k], tid, entry, now)
  }

  ghost predicate RowHasEntry(p: Platform, row: User, tid: Id, entries: seq<UserConfig>, now: Time) {
    exists i :: 0 <= i < |entries| && StoredUser(p, row, tid, entries[i], now)
  }

  /** The tenant has exactly one user for every entry and no others. */
  ghost predicate HasUsers(p: Platform, users: map<Id, User>, tid: Id, entries: seq<UserConfig>, now: Time) {
    && (forall i :: 0 <= i < |entries| ==> EntryHasRow(p, users, tid, entries[i], now))
    && (forall k :: k in users && users[k].tenantId == tid ==> RowHasEntry(p, users[k], tid, entries, now))
    && (forall k, l :: k in users && l in users && users[k].tenantId == tid && users[l].tenantId == tid
                       && users[k].email == users[l].email ==>
          k == l)
  }

  lemma RowIsStored(p: Platform, rows: map<Id, User>, id: Id, tid: Id, u: UserConfig, now: Time)
    requires UserRowAt(p, rows, id, tid, u, now) && UserOk(p, u)
    ensures id in rows && StoredUser(p, rows[id], tid, u, now)
  {
  }

  /** Every entry's row is where its fresh id says, and the tenant has no others. */
  ghost predicate Indexed(p: Platform, after: map<Id, User>, start: nat, tid: Id, users: seq<UserConfig>, now: Time) {
    && (forall i :: 0 <= i < |users| ==>
          FreshAt(p, start, i) in after && StoredUser(p, after[FreshAt(p, start, i)], tid, users[i], now))
    && (forall k :: k in after && after[k].tenantId == tid ==>
          exists i :: 0 <= i < |users| && k == FreshAt(p, start, i))
  }

  lemma RowsAreIndexed(p: Platform, before: map<Id, User>, after: map<Id, User>, start: nat, tid: Id,
                       users: seq<UserConfig>, now: Time)
    requires UserRows(p, before, after, start, tid, users, now) && UsersView(before, tid) == {} && UsersOk(p, users)
    ensures Indexed(p, after, start, tid, users, now)
  {
    NobodyYet(before, tid);
    hide FreshAt, UserRowAt, UserOk, UsersView, StoredUser;
    forall i | 0 <= i < |users|
      ensures FreshAt(p, start, i) in after && StoredUser(p, after[FreshAt(p, start, i)], tid, users[i], now)
    {
      RowIsStored(p, after, FreshAt(p, start, i), tid, users[i], now);
    }
  }

  lemma UsersAreHad(p: Platform, before: map<Id, User>, after: map<Id, User>, start: nat, tid: Id,
                    users: seq<UserConfig>, now: Time)
    requires UserRows(p, before, after, start, tid, users, now) && UsersView(before, tid) == {} && UsersOk(p, users)
    ensures HasUsers(p, after, tid, users, now)
  {
    EmailsDiffer(p, users);
    RowsAreIndexed(p, before, after, start, tid, users, now);
    hide FreshAt, UserRows, UsersOk, UsersView, StoredUser;
    OneEach(p, after, start, tid, users, now);
    forall k | k in after && after[k].tenantId == tid
      ensures RowHasEntry(p, after[k], tid, users, now)
    {
      var i :| 0 <= i < |users| && k == FreshAt(p, start, i);
      assert StoredUser(p, after[k], tid, users[i], now);
    }
  }

  lemma OneEach(p: Platform, after: map<Id, User>, start: nat, tid: Id, users: seq<UserConfig>, now: Time)
    requires forall i, j :: 0 <= i < j < |users| ==> users[i].email != users[j].email
    requires Indexed(p, after, start, tid, users, now)
    ensures forall k, l :: k in after && l in after && after[k].tenantId == tid && after[l].tenantId == tid
                           && after[k].email == after[l].email ==>
              k == l
  {
    hide FreshAt;
    forall k, l | k in after && l in after && after[k].tenantId == tid && after[l].tenantId == tid
                  && after[k].email == after[l].email
      ensures k == l
    {
      var i :| 0 <= i < |users| && k == FreshAt(p, start, i);
      var j :| 0 <= j < |users| && l == FreshAt(p, start, j);
      assert users[i].email == users[j].email;
    }
  }

  /** The new tenant and everything the document says, next to every row that was there. */
  ghost predicate Imported(p: Platform, before: Tables, after: Tables, tid: Id, start: nat, cfg: ImportConfig,
                           now: Time) {
    var users := Merged(p, cfg.admin, cfg.users);
    && after.tenants == before.tenants[tid := Tenant(cfg.slug, cfg.name, cfg.registrationEnabled,
         if cfg.smtp.Some? then cfg.smtp.value else Smtp("", "", "", "", "", "", 0), now)]
    && HasUsers(p, after.users, tid, users, now)
    && UsersKept(before.users, after.users)
    && ClientRows(p, before.clients, after.clients, start + |users|, tid, cfg.clients, now)
    && Grows(before.(tenants := after.tenants, users := after.users, clients := after.clients), after)
  }

  /**
   * ImportTenantConfig: an unusable slug is refused and a known one skipped, both without any change; otherwise the
   * document is imported as Import says, or refused with whatever was added so far left behind. What a finished import
   * leaves is written out in Imported and Marketed, and when one finishes in Acceptable.
   */
  method ImportTenantConfig(db: Database, p: Platform, cfg: ImportConfig, now: Time, start: nat)
    returns (result: ImportResult, next: nat)
    requires Sound(db.tables) && Fresh(p, start, db.tables) && NothingLeft(db.tables, p.uuid(start))
    modifies db
    ensures !p.validSlug(cfg.slug) ==> result == Refused && db.tables == old(db.tables)
    ensures p.validSlug(cfg.slug) && SlugTaken(old(db.tables), cfg.slug) ==>
      && result.Skipped? && db.tables == old(db.tables)
      && result.tenantId in db.tables.tenants && db.tables.tenants[result.tenantId].slug == cfg.slug
    ensures p.validSlug(cfg.slug) && !SlugTaken(old(db.tables), cfg.slug) ==>
      var imported := Import(p, old(db.tables), cfg, now, start);
      if imported.Some? then
        result == Done(p.uuid(start), imported.value.skipped) && db.tables == imported.value.db
          && next == imported.value.next
      else result == Refused
    ensures result.Done? ==> Imported(p, old(db.tables), db.tables, result.tenantId, start + 1, cfg, now)
    ensures OwnInvites(p, cfg) && p.validSlug(cfg.slug) && !SlugTaken(old(db.tables), cfg.slug) ==>
      (result.Done? <==> Acceptable(p, cfg, start + 1, old(db.tables).clients.Keys, InvitesOf(old(db.tables).contacts)))
    ensures OwnInvites(p, cfg) && result.Done? ==>
      exists t: Loaded, ids :: t.db == db.tables && Marketed(p, t, result.tenantId, cfg, now, ids)
  {
    next := start;
    if !p.validSlug(cfg.slug) {
      return Refused, next;
    }
    if t :| t in db.tables.tenants && db.tables.tenants[t].slug == cfg.slug {
      return Skipped(t), next;
    }
    var tid := p.uuid(start);
    FirstStage(p, db.tables, cfg, now, start);
    ImportIs(p, db.tables, cfg, now, start);
    hide Sound, Fresh, NothingLeft, UsersView, WithEmptyTenant, UniqueContacts, AddAll, Imported, OwnInvites;
    hide Acceptable;
    hide Marketed;
    CreateTenant(db, p, cfg, now, start);
    var ok, skipped;
    ok, next, skipped := ImportEntries(db, p, tid, cfg, now, start + 1);
    return if ok then Done(tid, skipped) else Refused, next;
  }

  /** What Import amounts to. */
  lemma ImportIs(p: Platform, db: Tables, cfg: ImportConfig, now: Time, start: nat)
    requires Sound(db) && Fresh(p, start, db) && NothingLeft(db, p.uuid(start))
    ensures
      var s, tid := WithEmptyTenant(p, db, cfg, now, start), p.uuid(start);
      var added := AddAll(p, s, tid, cfg, now);
      && (added.Some? ==> Imported(p, db, added.value.db, tid, start + 1, cfg, now))
      && (OwnInvites(p, cfg) ==>
            (added.Some? <==> Acceptable(p, cfg, start + 1, db.clients.Keys, InvitesOf(db.contacts))))
      && (OwnInvites(p, cfg) && added.Some? ==> exists ids :: Marketed(p, added.value, tid, cfg, now, ids))
  {
    var s, tid := WithEmptyTenant(p, db, cfg, now, start), p.uuid(start);
    FirstStage(p, db, cfg, now, start);
    StartsEmpty(p, db, cfg, now, start);
    TenantMade(p, db, cfg, now, start);
    hide Sound, Fresh, NothingLeft, UsersView, WithEmptyTenant, AddAll, OwnInvites, Acceptable, Marketed, Empty;
    hide UniqueContacts, Imported, InvitesOf;
    if OwnInvites(p, cfg) {
      var ids := AllAdded(p, s, tid, cfg, now);
    }
    if AddAll(p, s, tid, cfg, now).Some? {
      WhatIsImported(p, db, s, tid, cfg, now);
    }
  }

  lemma WhatIsImported(p: Platform, db: Tables, s: Loaded, tid: Id, cfg: ImportConfig, now: Time)
    requires Fresh(p, s.next, s.db) && UsersView(s.db.users, tid) == {} && s.db == db.(tenants := s.db.tenants)
    requires s.db.tenants == db.tenants[tid := Tenant(cfg.slug, cfg.name, cfg.registrationEnabled,
      if cfg.smtp.Some? then cfg.smtp.value else Smtp("", "", "", "", "", "", 0), now)]
    requires AddAll(p, s, tid, cfg, now).Some?
    ensures Imported(p, db, AddAll(p, s, tid, cfg, now).value.db, tid, s.next, cfg, now)
  {
    hide Fresh, UsersView, AddAll, UserRows, ClientRows, HasUsers, Merged, UsersOk, ClientsOk, Grows;
    PeopleAdded(p, s, tid, cfg, now);
    var after, users := AddAll(p, s, tid, cfg, now).value.db, Merged(p, cfg.admin, cfg.users);
    UsersAreHad(p, s.db.users, after.users, s.next, tid, users, now);
    OldUsersStay(p, s.db.users, after.users, s.next, tid, users, now);
    GrownFrom(db, s.db, after);
  }

  lemma OldUsersStay(p: Platform, before: map<Id, User>, after: map<Id, User>, start: nat, tid: Id,
                     users: seq<UserConfig>, now: Time)
    requires UserRows(p, before, after, start, tid, users, now)
    ensures UsersKept(before, after)
  {
    hide FreshIds, UserRowAt;
  }

  lemma GrownFrom(db: Tables, s: Tables, after: Tables)
    requires s == db.(tenants := s.tenants) && Grows(s.(users := after.users, clients := after.clients), after)
    ensures Grows(db.(tenants := after.tenants, users := after.users, clients := after.clients), after)
    ensures after.tenants == s.tenants
  {
  }

  lemma TenantMade(p: Platform, db: Tables, cfg: ImportConfig, now: Time, start: nat)
    ensures
      var s := WithEmptyTenant(p, db, cfg, now, start).db;
      && s == db.(tenants := s.tenants)
      && s.tenants == db.tenants[p.uuid(start) := Tenant(cfg.slug, cfg.name, cfg.registrationEnabled,
           if cfg.smtp.Some? then cfg.smtp.value else Smtp("", "", "", "", "", "", 0), now)]
  {
  }

  lemma StartsEmpty(p: Platform, db: Tables, cfg: ImportConfig, now: Time, next: nat)
    requires Sound(db) && Fresh(p, next, db) && NothingLeft(db, p.uuid(next))
    ensures Empty(p, WithEmptyTenant(p, db, cfg, now, next), p.uuid(next))
  {
    hide Fresh, UsersView, ClientsView, UniqueContacts;
    FirstStage(p, db, cfg, now, next);
    NothingOfTheTenant(db, p.uuid(next));
    hide NothingLeft;
    assert MembersExist(db.contactSegments, db.contacts, db.segments)
        && TargetsExist(db.campaignSegments, db.campaigns, db.segments)
        && RecipientsExist(db.recipients, db.campaigns, db.contacts);
    hide Sound, MembersExist, TargetsExist, RecipientsExist;
  }

  lemma NothingOfTheTenant(db: Tables, tid: Id)
    requires NothingLeft(db, tid)
    ensures ClientsView(db.clients, tid) == {} && CampaignsOf(db, tid) == {}
    ensures forall g :: g in db.segments ==> db.segments[g].tenantId != tid
    ensures forall c :: c in db.contacts ==> db.contacts[c].tenantId != tid
  {
  }

  lemma FirstStage(p: Platform, db: Tables, cfg: ImportConfig, now: Time, start: nat)
    requires Sound(db) && Fresh(p, start, db) && NothingLeft(db, p.uuid(start))
    ensures
      var s := WithEmptyTenant(p, db, cfg, now, start);
      && s == Loaded(s.db, start + 1, map[], map[], []) && s.db.contacts == db.contacts && UniqueContacts(db.contacts)
      && Fresh(p, s.next, s.db) && UsersView(s.db.users, p.uuid(start)) == {}
  {
    var s := WithEmptyTenant(p, db, cfg, now, start);
    assert UniqueContacts(db.contacts);
    UsesOneId(p, start, db, s.db) by {
      assert Ids(s.db) <= Ids(db) + {p.uuid(start)};
    }
  }
}

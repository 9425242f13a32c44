/** What the user, client and segment loops of an import add to an empty tenant, and when they are refused. */
module ImportPeople {
  import opened Wrappers
  import opened Schema
  import opened StoreOps
  import opened TenantViews
  import opened TenantConfig
  import opened TenantImport

  /** Every id and token a fresh one could collide with. */
  function Ids(db: Tables): set<Id> {
    db.tenants.Keys + db.users.Keys + db.segments.Keys + db.contacts.Keys + db.campaigns.Keys + db.recipients.Keys
    + UnsubscribesOf(db.contacts) + InvitesOf(db.contacts)
  }

  function UnsubscribesOf(contacts: map<Id, Contact>): set<Id> {
    set c | c in contacts :: contacts[c].unsubscribeToken
  }

  function InvitesOf(contacts: map<Id, Contact>): set<Id> {
    set c | c in contacts && contacts[c].inviteToken.Some? :: contacts[c].inviteToken.value
  }

  ghost predicate Fresh(p: Platform, next: nat, db: Tables) {
    Supply(p.uuid, next, Ids(db))
  }

  /** Hashes and fresh ids are never empty. */
  ghost predicate Proper(p: Platform) {
    (forall s :: p.bcrypt(s) != "") && (forall i :: p.uuid(i) != "")
  }

  lemma StaysFresh(p: Platform, next: nat, db: Tables, later: nat, after: Tables)
    requires Fresh(p, next, db) && next <= later
    requires forall x :: x in Ids(after) ==> x in Ids(db) || exists i :: next <= i < later && p.uuid(i) == x
    ensures Fresh(p, later, after)
  {
  }

  lemma UsesOneId(p: Platform, next: nat, db: Tables, after: Tables)
    requires Fresh(p, next, db) && Ids(after) <= Ids(db) + {p.uuid(next)}
    ensures Fresh(p, next + 1, after)
  {
  }

  // --- Users ---

  /** The user an entry describes: its own hash or that of its password, and "member" for any role but "admin". */
  function EntryUser(p: Platform, u: UserConfig): UserView {
    UserView(u.email, if u.passwordHash != "" then u.passwordHash else p.bcrypt(u.password), u.name,
             if u.passwordHash != "" || u.role == "admin" then u.role else "member")
  }

  function EntryUsers(p: Platform, users: seq<UserConfig>): set<UserView> {
    set u | u in users :: EntryUser(p, u)
  }

  /** The i-th fresh id. */
  function FreshAt(p: Platform, start: nat, i: nat): Id {
    p.uuid(start + i)
  }

  function FreshIds(p: Platform, start: nat, n: nat): set<Id> {
    set i | 0 <= i < n :: FreshAt(p, start, i)
  }

  /** The tables before with one row for every entry, under the fresh ids in order. */
  ghost predicate UserRows(p: Platform, before: map<Id, User>, after: map<Id, User>, start: nat, tid: Id,
                           users: seq<UserConfig>, now: Time)
  {
    && after.Keys == before.Keys + FreshIds(p, start, |users|) && FreshIds(p, start, |users|) !! before.Keys
    && (forall k :: k in before ==> after[k] == before[k])
    && forall i :: 0 <= i < |users| ==> UserRowAt(p, after, FreshAt(p, start, i), tid, users[i], now)
  }

  ghost predicate UserRowAt(p: Platform, rows: map<Id, User>, id: Id, tid: Id, u: UserConfig, now: Time) {
    && id in rows && ViewUser(rows[id]) == EntryUser(p, u) && rows[id].tenantId == tid && rows[id].createdAt == now
    && rows[id].reset == None
  }

  lemma UserAdded(p: Platform, s: Loaded, tid: Id, u: UserConfig, now: Time)
    requires Fresh(p, s.next, s.db) && !EmailTaken(s.db, tid, u.email)
    ensures
      var added, id := AddUser(p, s, tid, u, now), FreshAt(p, s.next, 0);
      && id !in s.db.users && added.Some?
      && added.value == s.(db := s.db.(users := added.value.db.users), next := s.next + 1)
      && added.value.db.users.Keys == s.db.users.Keys + {id}
      && (forall k :: k in s.db.users ==> added.value.db.users[k] == s.db.users[k])
      && UserRowAt(p, added.value.db.users, id, tid, u, now)
      && Fresh(p, added.value.next, added.value.db)
  {
    var id, r := p.uuid(s.next), AddUser(p, s, tid, u, now).value;
    assert id !in s.db.users;
    hide EmailTaken;
    StaysFresh(p, s.next, s.db, s.next + 1, r.db);
  }

  lemma EmailStillFree(p: Platform, before: Tables, after: Tables, start: nat, tid: Id, users: seq<UserConfig>,
                       now: Time, email: string)
    requires UserRows(p, before.users, after.users, start, tid, users, now) && UsersView(before.users, tid) == {}
    requires forall i :: 0 <= i < |users| ==> users[i].email != email
    ensures !EmailTaken(after, tid, email)
  {
    NobodyYet(before.users, tid);
    forall k | k in after.users && after.users[k].tenantId == tid
      ensures after.users[k].email != email
    {
      if k !in before.users {
        var i :| 0 <= i < |users| && k == FreshAt(p, start, i);
        assert UserRowAt(p, after.users, FreshAt(p, start, i), tid, users[i], now);
      }
    }
  }

  lemma NobodyYet(users: map<Id, User>, tid: Id)
    requires UsersView(users, tid) == {}
    ensures forall k :: k in users ==> users[k].tenantId != tid
  {
    assert forall k :: k in users && users[k].tenantId == tid ==> ViewUser(users[k]) in UsersView(users, tid);
  }

  lemma UserRowsGrow(p: Platform, before: map<Id, User>, t: map<Id, User>, after: map<Id, User>, start: nat, tid: Id,
                     users: seq<UserConfig>, now: Time)
    requires users != [] && UserRows(p, before, t, start, tid, users[..|users| - 1], now)
    requires FreshAt(p, start, |users| - 1) !in t && after.Keys == t.Keys + {FreshAt(p, start, |users| - 1)}
    requires forall k :: k in t ==> after[k] == t[k]
    requires UserRowAt(p, after, FreshAt(p, start, |users| - 1), tid, users[|users| - 1], now)
    ensures UserRows(p, before, after, start, tid, users, now)
  {
    var n := |users| - 1;
    hide FreshAt;
    FreshIdsGrow(p, start, n);
    forall i | 0 <= i < |users|
      ensures UserRowAt(p, after, FreshAt(p, start, i), tid, users[i], now)
    {
      if i < n {
        assert users[..n][i] == users[i] && UserRowAt(p, t, FreshAt(p, start, i), tid, users[..n][i], now);
      }
    }
  }

  lemma FreshIdsGrow(p: Platform, start: nat, n: nat)
    ensures FreshIds(p, start, n + 1) == FreshIds(p, start, n) + {FreshAt(p, start, n)}
  {
    hide FreshAt;
  }

  /**
   * Users whose emails differ are all added, each with its email, name and role and its own hash or that of its
   * password, and no row that was there changes.
   */
  lemma {:induction false} UsersAdded(p: Platform, s: Loaded, tid: Id, users: seq<UserConfig>, now: Time)
    requires Fresh(p, s.next, s.db) && UsersView(s.db.users, tid) == {}
    requires forall i, j :: 0 <= i < j < |users| ==> users[i].email != users[j].email
    ensures
      var added := AddUsers(p, s, tid, users, now);
      && added.Some? && added.value == s.(db := s.db.(users := added.value.db.users), next := s.next + |users|)
      && Fresh(p, added.value.next, added.value.db)
      && UserRows(p, s.db.users, added.value.db.users, s.next, tid, users, now)
  {
    hide Fresh, UsersView, AddUser, Ids, UserRowAt, EmailTaken;
    if users == [] {
      assert FreshIds(p, s.next, 0) == {};
    } else {
      hide UserRows;
      var n := |users| - 1;
      UsersAdded(p, s, tid, users[..n], now);
      var t := AddUsers(p, s, tid, users[..n], now).value;
      EmailStillFree(p, s.db, t.db, s.next, tid, users[..n], now, users[n].email);
      UserAdded(p, t, tid, users[n], now);
      UserRowsGrow(p, s.db.users, t.db.users, AddUser(p, t, tid, users[n], now).value.db.users, s.next, tid, users,
                   now);
    }
  }

  /** Then the tenant has these users and nobody else. */
  lemma UsersSeen(p: Platform, before: map<Id, User>, after: map<Id, User>, start: nat, tid: Id, users: seq<UserConfig>,
                  now: Time)
    requires UserRows(p, before, after, start, tid, users, now) && UsersView(before, tid) == {}
    ensures UsersView(after, tid) == EntryUsers(p, users)
  {
    NobodyYet(before, tid);
    hide EntryUser, ViewUser;
    forall v | v in UsersView(after, tid)
      ensures v in EntryUsers(p, users)
    {
      var k :| k in after && after[k].tenantId == tid && ViewUser(after[k]) == v;
      if k !in before {
        var i :| 0 <= i < |users| && k == FreshAt(p, start, i);
        assert UserRowAt(p, after, FreshAt(p, start, i), tid, users[i], now) && users[i] in users;
      }
    }
    forall v | v in EntryUsers(p, users)
      ensures v in UsersView(after, tid)
    {
      var i :| 0 <= i < |users| && EntryUser(p, users[i]) == v;
      assert UserRowAt(p, after, FreshAt(p, start, i), tid, users[i], now);
    }
  }

  // --- Clients ---

  predicate ClientViewOk(p: Platform, v: ClientView) {
    && v.id != "" && v.secretHash != "" && NameOk(v.name)
    && forall i :: 0 <= i < |v.redirectUris| ==> p.validUri(v.redirectUris[i])
  }

  /** The id of the i-th client: its own or a fresh one. */
  function DocClientId(p: Platform, start: nat, clients: seq<ClientConfig>, i: nat): Id
    requires i < |clients|
  {
    if clients[i].clientId != "" then clients[i].clientId else p.uuid(start + 2 * i)
  }

  /**
   * The i-th client is stored with its name and redirect URIs and, if it has an id, its own hash or else that of its
   * own secret; otherwise with the hash of a fresh secret.
   */
  ghost predicate ClientRowAt(p: Platform, rows: map<Id, Client>, start: nat, tid: Id, clients: seq<ClientConfig>,
                              now: Time, i: nat)
    requires i < |clients|
  {
    var c, id := clients[i], DocClientId(p, start, clients, i);
    && id in rows && rows[id].tenantId == tid && rows[id].name == c.name && rows[id].redirectUris == c.redirectUris
    && rows[id].createdAt == now
    && (c.clientId != "" && c.secretHash != "" ==> rows[id].secretHash == c.secretHash)
    && (c.clientId != "" && c.secretHash == "" && c.secret != "" ==> rows[id].secretHash == p.bcrypt(c.secret))
    && (c.clientId == "" || (c.secretHash == "" && c.secret == "") ==>
          rows[id].secretHash == p.bcrypt(p.uuid(start + 2 * i + 1)))
  }

  /** The tables before with one row for every entry. */
  ghost predicate ClientRows(p: Platform, before: map<Id, Client>, after: map<Id, Client>, start: nat, tid: Id,
                             clients: seq<ClientConfig>, now: Time)
  {
    && (forall k :: k in before ==> k in after && after[k] == before[k])
    && (forall k :: k in after && k !in before ==>
          exists i :: 0 <= i < |clients| && k == DocClientId(p, start, clients, i))
    && forall i :: 0 <= i < |clients| ==> ClientRowAt(p, after, start, tid, clients, now, i)
  }

  /** No client id is taken or repeated. */
  ghost predicate ClientIdsFree(p: Platform, start: nat, clients: seq<ClientConfig>, taken: set<Id>) {
    && (forall i :: 0 <= i < |clients| ==> DocClientId(p, start, clients, i) !in taken)
    && (forall i, j :: 0 <= i < j < |clients| ==>
          DocClientId(p, start, clients, i) != DocClientId(p, start, clients, j))
  }

  lemma ClientAdded(p: Platform, s: Loaded, tid: Id, c: ClientConfig, now: Time)
    requires Fresh(p, s.next, s.db)
    ensures
      var added, id := AddClient(p, s, tid, c, now), if c.clientId != "" then c.clientId else p.uuid(s.next);
      && (added.Some? <==> id !in s.db.clients)
      && (added.Some? ==>
            && added.value == s.(db := s.db.(clients := added.value.db.clients), next := s.next + 2)
            && Fresh(p, added.value.next, added.value.db)
            && added.value.db.clients.Keys == s.db.clients.Keys + {id}
            && (forall k :: k in s.db.clients ==> added.value.db.clients[k] == s.db.clients[k])
            && ClientRowAt(p, added.value.db.clients, s.next, tid, [c], now, 0))
  {
    if ClientId(p, s, c) !in s.db.clients {
      StaysFresh(p, s.next, s.db, s.next + 2, AddClient(p, s, tid, c, now).value.db);
    }
  }

  lemma ClientRowMoves(p: Platform, t: map<Id, Client>, after: map<Id, Client>, start: nat, tid: Id,
                       clients: seq<ClientConfig>, now: Time, i: nat)
    requires i < |clients| - 1 && forall k :: k in t ==> k in after && after[k] == t[k]
    requires ClientRowAt(p, t, start, tid, clients[..|clients| - 1], now, i)
    ensures ClientRowAt(p, after, start, tid, clients, now, i)
  {
    assert clients[..|clients| - 1][i] == clients[i];
  }

  lemma ClientRowLast(p: Platform, after: map<Id, Client>, start: nat, tid: Id, clients: seq<ClientConfig>, now: Time,
                      i: nat)
    requires i < |clients| && ClientRowAt(p, after, start + 2 * i, tid, [clients[i]], now, 0)
    ensures ClientRowAt(p, after, start, tid, clients, now, i)
  {
    assert start + 2 * i + 2 * 0 == start + 2 * i;
  }

  lemma ClientRowsGrow(p: Platform, before: map<Id, Client>, t: map<Id, Client>, after: map<Id, Client>, start: nat,
                       tid: Id, clients: seq<ClientConfig>, now: Time)
    requires clients != [] && ClientRows(p, before, t, start, tid, clients[..|clients| - 1], now)
    requires after.Keys == t.Keys + {DocClientId(p, start, clients, |clients| - 1)}
    requires forall k :: k in t ==> after[k] == t[k]
    requires ClientRowAt(p, after, start + 2 * (|clients| - 1), tid, [clients[|clients| - 1]], now, 0)
    ensures ClientRows(p, before, after, start, tid, clients, now)
  {
    hide ClientRowAt;
    var n := |clients| - 1;
    forall i | 0 <= i < |clients|
      ensures ClientRowAt(p, after, start, tid, clients, now, i)
      ensures i < n ==> DocClientId(p, start, clients[..n], i) == DocClientId(p, start, clients, i)
    {
      if i < n {
        ClientRowMoves(p, t, after, start, tid, clients, now, i);
      } else {
        ClientRowLast(p, after, start, tid, clients, now, i);
      }
    }
    forall k | k in after && k !in before
      ensures exists i :: 0 <= i < |clients| && k == DocClientId(p, start, clients, i)
    {
      if k in t {
        var i :| 0 <= i < n && k == DocClientId(p, start, clients[..n], i);
        assert k == DocClientId(p, start, clients, i);
      }
    }
  }

  lemma IdsFreeOneMore(p: Platform, start: nat, clients: seq<ClientConfig>, before: map<Id, Client>, t: map<Id, Client>,
                       tid: Id, now: Time)
    requires clients != [] && ClientRows(p, before, t, start, tid, clients[..|clients| - 1], now)
    ensures ClientIdsFree(p, start, clients, before.Keys) <==>
      && ClientIdsFree(p, start, clients[..|clients| - 1], before.Keys)
      && DocClientId(p, start, clients, |clients| - 1) !in t
  {
    IdsPrefix(p, start, clients);
    var n := |clients| - 1;
    forall i | 0 <= i < n
      ensures DocClientId(p, start, clients[..n], i) in t
    {
      assert ClientRowAt(p, t, start, tid, clients[..n], now, i);
    }
    hide DocClientId, ClientRowAt;
    var last := DocClientId(p, start, clients, n);
    if last in t && last !in before {
      var i :| 0 <= i < n && last == DocClientId(p, start, clients[..n], i);
      assert DocClientId(p, start, clients, i) == last;
    }
  }

  lemma IdsPrefix(p: Platform, start: nat, clients: seq<ClientConfig>)
    requires clients != []
    ensures forall i :: 0 <= i < |clients| - 1 ==>
      DocClientId(p, start, clients[..|clients| - 1], i) == DocClientId(p, start, clients, i)
    ensures forall taken :: ClientIdsFree(p, start, clients, taken) ==>
      ClientIdsFree(p, start, clients[..|clients| - 1], taken)
  {
    var n := |clients| - 1;
    forall i | 0 <= i < n
      ensures DocClientId(p, start, clients[..n], i) == DocClientId(p, start, clients, i)
    {
      assert clients[..n][i] == clients[i];
    }
    hide DocClientId;
  }

  /** Clients are all added as they describe themselves, or refused, exactly if an id is taken or repeated. */
  lemma {:induction false} ClientsAdded(p: Platform, s: Loaded, tid: Id, clients: seq<ClientConfig>, now: Time)
    requires Fresh(p, s.next, s.db)
    ensures
      var added := AddClients(p, s, tid, clients, now);
      && (added.Some? <==> ClientIdsFree(p, s.next, clients, s.db.clients.Keys))
      && (added.Some? ==>
            && added.value == s.(db := s.db.(clients := added.value.db.clients), next := s.next + 2 * |clients|)
            && Fresh(p, added.value.next, added.value.db)
            && ClientRows(p, s.db.clients, added.value.db.clients, s.next, tid, clients, now))
  {
    hide Fresh, AddClient, ClientRowAt;
    if clients != [] {
      var n := |clients| - 1;
      ClientsAdded(p, s, tid, clients[..n], now);
      hide ClientRows, ClientIdsFree;
      if AddClients(p, s, tid, clients[..n], now).Some? {
        var t := AddClients(p, s, tid, clients[..n], now).value;
        ClientsOneMore(p, s, t, tid, clients, now);
      } else {
        IdsPrefix(p, s.next, clients);
      }
    }
  }

  lemma ClientsOneMore(p: Platform, s: Loaded, t: Loaded, tid: Id, clients: seq<ClientConfig>, now: Time)
    requires clients != [] && ClientRows(p, s.db.clients, t.db.clients, s.next, tid, clients[..|clients| - 1], now)
    requires Fresh(p, t.next, t.db) && t.next == s.next + 2 * (|clients| - 1)
    ensures
      var n := |clients| - 1;
      var added := AddClient(p, t, tid, clients[n], now);
      && (ClientIdsFree(p, s.next, clients, s.db.clients.Keys) <==>
            ClientIdsFree(p, s.next, clients[..n], s.db.clients.Keys) && added.Some?)
      && (added.Some? ==>
            && added.value == t.(db := t.db.(clients := added.value.db.clients), next := t.next + 2)
            && Fresh(p, added.value.next, added.value.db)
            && ClientRows(p, s.db.clients, added.value.db.clients, s.next, tid, clients, now))
  {
    hide Fresh, AddClient, ClientRowAt, ClientIdsFree, ClientRows;
    var n := |clients| - 1;
    IdsFreeOneMore(p, s.next, clients, s.db.clients, t.db.clients, tid, now);
    ClientAdded(p, t, tid, clients[n], now);
    if AddClient(p, t, tid, clients[n], now).Some? {
      ClientRowsGrow(p, s.db.clients, t.db.clients, AddClient(p, t, tid, clients[n], now).value.db.clients, s.next, tid,
                     clients, now);
    }
  }

  function ClientViews(clients: seq<ClientConfig>): set<ClientView> {
    set c | c in clients :: ClientView(c.clientId, c.secretHash, c.name, c.redirectUris)
  }

  /** A client entry as an export writes it. */
  ghost predicate ClientKept(c: ClientConfig, taken: set<Id>) {
    c.clientId != "" && c.secretHash != "" && c.clientId !in taken
  }

  /** Then the tenant has these clients and no others, with ids, hashes, names and URIs that pass the checks. */
  lemma ClientsSeen(p: Platform, before: map<Id, Client>, after: map<Id, Client>, start: nat, tid: Id,
                    clients: seq<ClientConfig>, now: Time)
    requires ClientRows(p, before, after, start, tid, clients, now) && ClientsView(before, tid) == {}
    requires Proper(p) && ClientsOk(p, clients)
    ensures forall v :: v in ClientsView(after, tid) ==> ClientViewOk(p, v)
    ensures (forall i :: 0 <= i < |clients| ==> ClientKept(clients[i], before.Keys)) ==>
      ClientsView(after, tid) == ClientViews(clients)
  {
    assert forall k :: k in before && before[k].tenantId == tid ==>
      ViewClient(k, before[k]) in ClientsView(before, tid);
    forall v | v in ClientsView(after, tid)
      ensures ClientViewOk(p, v)
      ensures exists i :: 0 <= i < |clients| && v.id == DocClientId(p, start, clients, i) && v.id in after
                          && ViewClient(v.id, after[v.id]) == v
    {
      var k :| k in after && after[k].tenantId == tid && ViewClient(k, after[k]) == v;
      if k !in before {
        var i :| 0 <= i < |clients| && k == DocClientId(p, start, clients, i);
        assert ClientRowAt(p, after, start, tid, clients, now, i) && ClientOk(p, clients[i]);
      }
    }
    if forall i :: 0 <= i < |clients| ==> ClientKept(clients[i], before.Keys) {
      KeptClientsSeen(p, after, start, tid, clients, now);
    }
  }

  lemma KeptClientsSeen(p: Platform, after: map<Id, Client>, start: nat, tid: Id, clients: seq<ClientConfig>, now: Time)
    requires forall i :: 0 <= i < |clients| ==> ClientRowAt(p, after, start, tid, clients, now, i)
    requires forall i :: 0 <= i < |clients| ==> clients[i].clientId != "" && clients[i].secretHash != ""
    requires forall v :: v in ClientsView(after, tid) ==>
               exists i :: 0 <= i < |clients| && v.id == DocClientId(p, start, clients, i) && v.id in after
                           && ViewClient(v.id, after[v.id]) == v
    ensures ClientsView(after, tid) == ClientViews(clients)
  {
    forall v | v in ClientsView(after, tid)
      ensures v in ClientViews(clients)
    {
      var i :| 0 <= i < |clients| && v.id == DocClientId(p, start, clients, i) && v.id in after
        && ViewClient(v.id, after[v.id]) == v;
      assert ClientRowAt(p, after, start, tid, clients, now, i) && clients[i] in clients;
    }
    forall v | v in ClientViews(clients)
      ensures v in ClientsView(after, tid)
    {
      var i :| 0 <= i < |clients|
        && ClientView(clients[i].clientId, clients[i].secretHash, clients[i].name, clients[i].redirectUris) == v;
      assert ClientRowAt(p, after, start, tid, clients, now, i);
      assert ViewClient(clients[i].clientId, after[clients[i].clientId]) == v;
    }
  }

  // --- Segments ---

  /** The name-to-id map knows exactly the segments of the tenant. */
  ghost predicate SegmentsMapped(s: Loaded, tid: Id) {
    && (forall n :: n in s.segments ==>
          && s.segments[n] in s.db.segments && s.db.segments[s.segments[n]].tenantId == tid
          && s.db.segments[s.segments[n]].name == n)
    && (forall g :: g in s.db.segments && s.db.segments[g].tenantId == tid ==>
          s.db.segments[g].name in s.segments)
  }

  lemma SegmentsViewPut(segments: map<Id, Segment>, tid: Id, id: Id, row: Segment)
    requires id !in segments && row.tenantId == tid
    ensures SegmentsView(segments[id := row], tid) == SegmentsView(segments, tid) + {ViewSegment(row)}
  {
    var more := segments[id := row];
    forall v | v in SegmentsView(segments, tid)
      ensures v in SegmentsView(more, tid)
    {
      var g :| g in segments && segments[g].tenantId == tid && ViewSegment(segments[g]) == v;
      assert g in more && more[g] == segments[g];
    }
    assert id in more && ViewSegment(more[id]) in SegmentsView(more, tid);
  }

  lemma SegmentAdded(p: Platform, s: Loaded, tid: Id, g: SegmentConfig, now: Time)
    requires Fresh(p, s.next, s.db) && SegmentsMapped(s, tid)
    ensures
      var added := AddSegment(p, s, tid, g, now);
      && (added.Some? <==> g.name !in s.segments)
      && (added.Some? ==>
            && OnlySegments(s, added.value) && added.value.segments.Keys == s.segments.Keys + {g.name}
            && SegmentsMapped(added.value, tid) && Fresh(p, added.value.next, added.value.db)
            && SegmentsView(added.value.db.segments, tid)
               == SegmentsView(s.db.segments, tid) + {SegmentView(g.name, g.description)})
  {
    SegmentNameFree(s, tid, g.name);
    hide Fresh, SegmentsMapped, SegmentNameTaken, SegmentsView;
    if g.name !in s.segments {
      var id, row := p.uuid(s.next), Segment(tid, g.name, g.description, now);
      SegmentInserted(p, s, tid, g, now);
      var r := AddSegment(p, s, tid, g, now).value;
      hide AddSegment;
      SegmentKeepsFresh(p, s, id, row);
      MappedPut(s, tid, id, row, r);
      SegmentsViewPut(s.db.segments, tid, id, row);
    }
  }

  lemma SegmentKeepsFresh(p: Platform, s: Loaded, id: Id, row: Segment)
    requires Fresh(p, s.next, s.db) && id == p.uuid(s.next)
    ensures Fresh(p, s.next + 1, s.db.(segments := s.db.segments[id := row]))
  {
    StaysFresh(p, s.next, s.db, s.next + 1, s.db.(segments := s.db.segments[id := row]));
  }

  lemma SegmentInserted(p: Platform, s: Loaded, tid: Id, g: SegmentConfig, now: Time)
    requires Fresh(p, s.next, s.db) && SegmentsMapped(s, tid) && g.name !in s.segments
    ensures p.uuid(s.next) !in s.db.segments
    ensures
      var id := p.uuid(s.next);
      AddSegment(p, s, tid, g, now) == Some(
        s.(db := s.db.(segments := s.db.segments[id := Segment(tid, g.name, g.description, now)]), next := s.next + 1,
           segments := s.segments[g.name := id]))
  {
    SegmentNameFree(s, tid, g.name);
    assert p.uuid(s.next) !in s.db.segments;
    hide Fresh, SegmentsMapped, SegmentNameTaken;
  }

  lemma MappedPut(s: Loaded, tid: Id, id: Id, row: Segment, t: Loaded)
    requires SegmentsMapped(s, tid) && id !in s.db.segments && row.tenantId == tid && row.name !in s.segments
    requires t.segments == s.segments[row.name := id] && t.db.segments == s.db.segments[id := row]
    ensures SegmentsMapped(t, tid)
  {
  }

  lemma SegmentNameFree(s: Loaded, tid: Id, name: string)
    requires SegmentsMapped(s, tid)
    ensures SegmentNameTaken(s.db, None, tid, name) <==> name in s.segments
  {
  }

  function SegmentNames(segments: seq<SegmentConfig>): set<string> {
    set g | g in segments :: g.name
  }

  function SegmentViews(segments: seq<SegmentConfig>): set<SegmentView> {
    set g | g in segments :: SegmentView(g.name, g.description)
  }

  lemma SegmentsGrow(segments: seq<SegmentConfig>, n: nat)
    requires n == |segments| - 1
    ensures SegmentNames(segments) == SegmentNames(segments[..n]) + {segments[n].name}
    ensures SegmentViews(segments) == SegmentViews(segments[..n])
      + {SegmentView(segments[n].name, segments[n].description)}
  {
    assert segments == segments[..n] + [segments[n]];
  }

  ghost predicate SegmentsApart(segments: seq<SegmentConfig>) {
    forall i, j :: 0 <= i < j < |segments| ==> segments[i].name != segments[j].name
  }

  lemma SegmentsApartOneMore(segments: seq<SegmentConfig>, n: nat)
    requires n == |segments| - 1
    ensures SegmentsApart(segments) <==>
      SegmentsApart(segments[..n]) && segments[n].name !in SegmentNames(segments[..n])
  {
    assert forall i :: 0 <= i < n ==> segments[..n][i] == segments[i] && segments[i] in segments[..n];
  }

  /** Segments are all added as they describe themselves, or the import is refused, exactly if a name is repeated. */
  lemma {:induction false} SegmentsAdded(p: Platform, s: Loaded, tid: Id, segments: seq<SegmentConfig>, now: Time)
    requires Fresh(p, s.next, s.db) && SegmentsMapped(s, tid) && s.segments == map[]
    ensures
      var added := AddSegments(p, s, tid, segments, now);
      && (added.Some? <==> SegmentsApart(segments))
      && (added.Some? ==>
            && OnlySegments(s, added.value) && added.value.segments.Keys == SegmentNames(segments)
            && SegmentsMapped(added.value, tid) && Fresh(p, added.value.next, added.value.db)
            && SegmentsView(added.value.db.segments, tid) == SegmentViews(segments))
  {
    hide Fresh, SegmentsView, AddSegment, SegmentViews;
    if segments == [] {
      NoSegments(s, tid);
    } else {
      hide SegmentsMapped;
      var n := |segments| - 1;
      SegmentsAdded(p, s, tid, segments[..n], now);
      SegmentsApartOneMore(segments, n);
      hide SegmentsApart;
      if AddSegments(p, s, tid, segments[..n], now).Some? {
        SegmentsGrow(segments, n);
        SegmentAdded(p, AddSegments(p, s, tid, segments[..n], now).value, tid, segments[n], now);
      }
    }
  }

  /** Only the segment table, its map and the supply of ids change, and the table only grows. */
  ghost predicate OnlySegments(s: Loaded, t: Loaded) {
    && t == s.(db := s.db.(segments := t.db.segments), next := t.next, segments := t.segments)
    && s.db.segments.Keys <= t.db.segments.Keys
  }

  lemma NoSegments(s: Loaded, tid: Id)
    requires SegmentsMapped(s, tid) && s.segments == map[]
    ensures SegmentsView(s.db.segments, tid) == {} && SegmentViews([]) == {}
  {
  }
}

/** What the contact loop of an import adds to a tenant without contacts, memberships included. */
module ImportContacts {
  import opened Wrappers
  import opened Schema
  import opened StoreOps
  import opened TenantViews
  import opened TenantConfig
  import opened TenantImport
  import opened ImportPeople

  /** The names an import knows, as labels of the tenant's own segments. */
  function DocLabels(names: seq<string>, known: set<string>): set<Label> {
    set n | n in names && n in known :: Own(n)
  }

  function DocContact(c: ContactConfig, known: set<string>, now: Time): ContactView {
    ContactView(c.email, c.name, c.consentSource, Or(c.unsubscribed, false), Or(c.consentAt, now), Or(c.createdAt, now),
                DocLabels(c.segments, known))
  }

  /** A contact entry as an export in migration mode writes it. */
  predicate Complete(c: ContactConfig) {
    c.unsubscribed.Some? && c.consentAt.Some? && c.createdAt.Some? && c.inviteToken.None?
  }

  /** A token the document brings is none of the fresh ones. */
  ghost predicate OwnInvite(p: Platform, c: ContactConfig) {
    c.inviteToken.Some? ==> forall i :: p.uuid(i) != c.inviteToken.value
  }

  /**
   * The row an entry describes. One that brings any field of a migration keeps the invite it brings, which never
   * expires; any other is invited anew for a week.
   */
  ghost predicate ContactRow(row: Contact, c: ContactConfig, tid: Id, now: Time) {
    && row.tenantId == tid && row.email == c.email && row.name == c.name && row.consentSource == c.consentSource
    && row.userId == None && (row.unsubscribed <==> c.unsubscribed == Some(true))
    && row.consentAt == (if c.consentAt.Some? then c.consentAt.value else now)
    && row.createdAt == (if c.createdAt.Some? then c.createdAt.value else now)
    && if c.unsubscribed.Some? || c.consentAt.Some? || c.createdAt.Some? || c.inviteToken.Some? then
         row.inviteToken == c.inviteToken && row.inviteExpiresAt == None
       else
         row.inviteToken.Some? && row.inviteExpiresAt == Some(now + 7 * 24 * 3600)
  }

  /** One contact more, known by its email. */
  ghost predicate ContactGrown(s: Loaded, t: Loaded, tid: Id, c: ContactConfig, now: Time) {
    && c.email in t.contacts
    && var id := t.contacts[c.email];
       && id !in s.db.contacts && id in t.db.contacts && ContactRow(t.db.contacts[id], c, tid, now)
       && t.db.contacts == s.db.contacts[id := t.db.contacts[id]] && t.contacts == s.contacts[c.email := id]
  }

  /** Every proper entry has its row. */
  ghost predicate ContactsStored(p: Platform, t: Loaded, tid: Id, contacts: seq<ContactConfig>, now: Time) {
    forall i :: 0 <= i < |contacts| && ContactOk(p, contacts[i]) ==> StoredAs(t, tid, contacts[i], now)
  }

  ghost predicate StoredAs(t: Loaded, tid: Id, c: ContactConfig, now: Time) {
    && c.email in t.contacts && t.contacts[c.email] in t.db.contacts
    && ContactRow(t.db.contacts[t.contacts[c.email]], c, tid, now)
  }

  lemma StoredMore(p: Platform, s: Loaded, t: Loaded, tid: Id, contacts: seq<ContactConfig>, now: Time)
    requires contacts != [] && ContactsStored(p, s, tid, contacts[..|contacts| - 1], now)
    requires ContactGrown(s, t, tid, contacts[|contacts| - 1], now) && contacts[|contacts| - 1].email !in s.contacts
    ensures ContactsStored(p, t, tid, contacts, now)
  {
    hide ContactRow, ContactOk;
    var n := |contacts| - 1;
    forall i | 0 <= i < |contacts| && ContactOk(p, contacts[i])
      ensures StoredAs(t, tid, contacts[i], now)
    {
      if i < n {
        assert contacts[..n][i] == contacts[i] && StoredAs(s, tid, contacts[i], now);
      }
    }
  }

  lemma StoredSkipping(p: Platform, s: Loaded, tid: Id, contacts: seq<ContactConfig>, now: Time, email: string)
    requires contacts != [] && ContactsStored(p, s, tid, contacts[..|contacts| - 1], now)
    requires !ContactOk(p, contacts[|contacts| - 1])
    ensures ContactsStored(p, s.(skipped := s.skipped + [email]), tid, contacts, now)
  {
    hide ContactRow, ContactOk;
    var n := |contacts| - 1;
    forall i | 0 <= i < |contacts| && ContactOk(p, contacts[i])
      ensures StoredAs(s.(skipped := s.skipped + [email]), tid, contacts[i], now)
    {
      assert contacts[..n][i] == contacts[i] && StoredAs(s, tid, contacts[i], now);
    }
  }

  predicate InviteFree(c: ContactConfig, taken: set<Id>) {
    c.inviteToken.Some? ==> c.inviteToken.value !in taken
  }

  /** The email-to-id map knows exactly the contacts of the tenant. */
  ghost predicate ContactsMapped(s: Loaded, tid: Id) {
    && (forall e :: e in s.contacts ==> HasEmail(s.db.contacts, tid, e, s.contacts[e]))
    && (forall c :: c in s.db.contacts && s.db.contacts[c].tenantId == tid ==> s.db.contacts[c].email in s.contacts)
  }

  function Pairs(owner: Id, segments: seq<Id>): set<(Id, Id)> {
    set g | g in segments :: (owner, g)
  }

  lemma {:induction false} SegmentsJoined(db: Tables, contact: Id, segments: seq<Id>)
    requires contact in db.contacts && forall g :: g in segments ==> g in db.segments
    ensures JoinSegments(db, contact, segments) ==
      Some(db.(contactSegments := db.contactSegments + Pairs(contact, segments)))
  {
    if segments == [] {
      assert db.contactSegments + Pairs(contact, []) == db.contactSegments;
    } else {
      var n := |segments| - 1;
      SegmentsJoined(db, contact, segments[..n]);
      assert segments == segments[..n] + [segments[n]];
      assert Pairs(contact, segments) == Pairs(contact, segments[..n]) + {(contact, segments[n])};
      assert db.contactSegments + Pairs(contact, segments)
          == db.contactSegments + Pairs(contact, segments[..n]) + {(contact, segments[n])};
    }
  }

  lemma {:induction false} KnownMembers(segments: map<string, Id>, names: seq<string>)
    ensures forall g :: g in Known(segments, names) ==> exists n :: n in names && n in segments && segments[n] == g
    ensures forall n :: n in names && n in segments ==> segments[n] in Known(segments, names)
  {
    if names != [] {
      var n := |names| - 1;
      KnownMembers(segments, names[..n]);
      assert names == names[..n] + [names[n]];
    }
  }

  /** Joining the known segments gives the labels the document names. */
  lemma JoinedLabels(s: Loaded, tid: Id, names: seq<string>, owner: Id, before: set<(Id, Id)>)
    requires SegmentsMapped(s, tid) && forall p :: p in before ==> p.0 != owner
    ensures
      Labels(s.db.segments, before + Pairs(owner, Known(s.segments, names)), tid, owner)
        == DocLabels(names, s.segments.Keys)
  {
    KnownMembers(s.segments, names);
    var ids := Known(s.segments, names);
    var labels := Labels(s.db.segments, before + Pairs(owner, ids), tid, owner);
    forall l | l in DocLabels(names, s.segments.Keys)
      ensures l in labels
    {
      var n :| n in names && n in s.segments && l == Own(n);
      assert (owner, s.segments[n]) in Pairs(owner, ids);
      assert LabelOf(s.db.segments, tid, s.segments[n]) == l;
    }
    forall l | l in labels
      ensures l in DocLabels(names, s.segments.Keys)
    {
      var q :| q in before + Pairs(owner, ids) && q.0 == owner && LabelOf(s.db.segments, tid, q.1) == l;
      var n :| n in names && n in s.segments && s.segments[n] == q.1;
    }
  }

  /** Pairs of one owner leave the labels of every other owner alone. */
  lemma OtherLabels(segments: map<Id, Segment>, before: set<(Id, Id)>, owner: Id, more: seq<Id>, tid: Id, other: Id)
    requires other != owner
    ensures Labels(segments, before + Pairs(owner, more), tid, other) == Labels(segments, before, tid, other)
  {
  }

  lemma ContactsViewPut(contacts: map<Id, Contact>, segments: map<Id, Segment>, before: set<(Id, Id)>, tid: Id,
                        id: Id, row: Contact, more: seq<Id>)
    requires id !in contacts && row.tenantId == tid
    ensures
      var after := before + Pairs(id, more);
      ContactsView(contacts[id := row], segments, after, tid)
      == ContactsView(contacts, segments, before, tid) + {ViewContact(row, Labels(segments, after, tid, id))}
  {
    var after, all := before + Pairs(id, more), contacts[id := row];
    forall c | c in contacts
      ensures c in all && all[c] == contacts[c] && Labels(segments, after, tid, c) == Labels(segments, before, tid, c)
    {
      OtherLabels(segments, before, id, more, tid, c);
    }
    hide Labels, ViewContact, Pairs;
    forall v | v in ContactsView(contacts, segments, before, tid)
      ensures v in ContactsView(all, segments, after, tid)
    {
      var c :| c in contacts && contacts[c].tenantId == tid
        && ViewContact(contacts[c], Labels(segments, before, tid, c)) == v;
      assert all[c].tenantId == tid && ViewContact(all[c], Labels(segments, after, tid, c)) == v;
    }
    assert id in all;
    assert ViewContact(all[id], Labels(segments, after, tid, id)) in ContactsView(all, segments, after, tid);
  }

  /** Only the contact tables, the contact map, the warnings and the supply of ids change. */
  ghost predicate OnlyContacts(s: Loaded, t: Loaded) {
    && t == s.(db := s.db.(contacts := t.db.contacts, contactSegments := t.db.contactSegments), next := t.next,
               contacts := t.contacts, skipped := t.skipped)
    && s.db.contacts.Keys <= t.db.contacts.Keys
  }

  /** A proper entry is refused exactly when its email or the invite token it brings is taken. */
  lemma ContactInserted(p: Platform, s: Loaded, tid: Id, c: ContactConfig, now: Time)
    requires Fresh(p, s.next, s.db) && ContactsMapped(s, tid)
    ensures p.uuid(s.next) !in s.db.contacts
    ensures InsertContact(s.db, p.uuid(s.next), NewContact(p, tid, c, s.next, now)) ==
      if c.email !in s.contacts && InviteFree(c, InvitesOf(s.db.contacts)) then
        Some(s.db.(contacts := s.db.contacts[p.uuid(s.next) := NewContact(p, tid, c, s.next, now)]))
      else None
  {
    var id, row := p.uuid(s.next), NewContact(p, tid, c, s.next, now);
    assert id !in s.db.contacts;
    forall k | k in s.db.contacts
      ensures s.db.contacts[k].unsubscribeToken != row.unsubscribeToken
      ensures row.inviteToken != c.inviteToken && s.db.contacts[k].inviteToken.Some? ==>
        row.inviteToken != s.db.contacts[k].inviteToken
      ensures s.db.contacts[k].inviteToken.Some? ==> s.db.contacts[k].inviteToken.value in InvitesOf(s.db.contacts)
    {
      assert s.db.contacts[k].unsubscribeToken in Ids(s.db);
      assert p.uuid(s.next + 1) !in Ids(s.db) && p.uuid(s.next + 2) !in Ids(s.db);
    }
    hide Fresh, Ids;
    if c.email in s.contacts {
      assert Clash(row, s.db.contacts[s.contacts[c.email]]);
    } else if !InviteFree(c, InvitesOf(s.db.contacts)) {
      var k :| k in s.db.contacts && s.db.contacts[k].inviteToken == c.inviteToken;
      assert Clash(row, s.db.contacts[k]);
    } else {
      assert ContactsMapped(s, tid);
    }
  }

  lemma MappedContactPut(s: Loaded, tid: Id, id: Id, row: Contact, t: Loaded)
    requires ContactsMapped(s, tid) && id !in s.db.contacts && row.tenantId == tid && row.email !in s.contacts
    requires t.contacts == s.contacts[row.email := id] && t.db.contacts == s.db.contacts[id := row]
    ensures ContactsMapped(t, tid)
  {
  }

  lemma ContactJoined(p: Platform, s: Loaded, tid: Id, c: ContactConfig, now: Time)
    requires Fresh(p, s.next, s.db) && SegmentsMapped(s, tid) && ContactsMapped(s, tid)
    requires c.email !in s.contacts && InviteFree(c, InvitesOf(s.db.contacts)) && ContactOk(p, c)
    ensures
      var id := p.uuid(s.next);
      && id !in s.db.contacts
      && AddContact(p, s, tid, c, now) == Some(
           s.(db := s.db.(contacts := s.db.contacts[id := NewContact(p, tid, c, s.next, now)],
                          contactSegments := s.db.contactSegments + Pairs(id, Known(s.segments, c.segments))),
              next := s.next + 3, contacts := s.contacts[c.email := id]))
  {
    var id := p.uuid(s.next);
    ContactInserted(p, s, tid, c, now);
    hide Fresh, ContactsMapped, InsertContact, NewContact, InviteFree, InvitesOf;
    var inserted := InsertContact(s.db, id, NewContact(p, tid, c, s.next, now)).value;
    KnownMembers(s.segments, c.segments);
    SegmentsJoined(inserted, id, Known(s.segments, c.segments));
  }

  lemma NewContactView(p: Platform, tid: Id, c: ContactConfig, next: nat, now: Time, known: set<string>)
    ensures ViewContact(NewContact(p, tid, c, next, now), DocLabels(c.segments, known)) == DocContact(c, known, now)
    ensures NewContact(p, tid, c, next, now).tenantId == tid && NewContact(p, tid, c, next, now).email == c.email
    ensures NewContact(p, tid, c, next, now).unsubscribeToken == p.uuid(next + 1)
    ensures NewContact(p, tid, c, next, now).inviteToken == c.inviteToken
         || (c.inviteToken.None? && NewContact(p, tid, c, next, now).inviteToken == Some(p.uuid(next + 2)))
    ensures ContactRow(NewContact(p, tid, c, next, now), c, tid, now)
  {
  }

  lemma ContactKeepsFresh(p: Platform, s: Loaded, c: ContactConfig, id: Id, row: Contact, after: Tables)
    requires Fresh(p, s.next, s.db) && id == p.uuid(s.next) && row.unsubscribeToken == p.uuid(s.next + 1)
    requires OwnInvite(p, c) && (row.inviteToken == c.inviteToken || row.inviteToken == Some(p.uuid(s.next + 2)))
    requires after == s.db.(contacts := s.db.contacts[id := row], contactSegments := after.contactSegments)
    ensures Fresh(p, s.next + 3, after)
  {
    TokensPut(s.db.contacts, id, row);
    assert Ids(after) <= Ids(s.db) + {id, row.unsubscribeToken} + TokenOf(row.inviteToken);
    hide Ids;
    forall i | i >= s.next + 3
      ensures p.uuid(i) !in Ids(after)
    {
      assert p.uuid(i) !in Ids(s.db) && p.uuid(i) != p.uuid(s.next + 2);
    }
  }

  function TokenOf(token: Option<Id>): set<Id> {
    if token.Some? then {token.value} else {}
  }

  lemma TokensPut(contacts: map<Id, Contact>, id: Id, row: Contact)
    ensures InvitesOf(contacts[id := row]) <= InvitesOf(contacts) + TokenOf(row.inviteToken)
    ensures UnsubscribesOf(contacts[id := row]) <= UnsubscribesOf(contacts) + {row.unsubscribeToken}
  {
  }

  lemma MembersJoined(s: Loaded, tid: Id, id: Id, row: Contact, names: seq<string>)
    requires SegmentsMapped(s, tid) && MembersExist(s.db.contactSegments, s.db.contacts, s.db.segments)
    ensures MembersExist(s.db.contactSegments + Pairs(id, Known(s.segments, names)), s.db.contacts[id := row],
                         s.db.segments)
  {
    KnownMembers(s.segments, names);
  }

  lemma ContactViewAdded(p: Platform, s: Loaded, tid: Id, c: ContactConfig, now: Time, id: Id, row: Contact)
    requires SegmentsMapped(s, tid) && MembersExist(s.db.contactSegments, s.db.contacts, s.db.segments)
    requires id !in s.db.contacts && row.tenantId == tid
    requires ViewContact(row, DocLabels(c.segments, s.segments.Keys)) == DocContact(c, s.segments.Keys, now)
    ensures
      ContactsView(s.db.contacts[id := row], s.db.segments,
                   s.db.contactSegments + Pairs(id, Known(s.segments, c.segments)), tid)
      == ContactsView(s.db.contacts, s.db.segments, s.db.contactSegments, tid) + {DocContact(c, s.segments.Keys, now)}
  {
    hide ContactsView, ViewContact, Labels, DocLabels, DocContact, Known, Pairs;
    JoinedLabels(s, tid, c.segments, id, s.db.contactSegments);
    ContactsViewPut(s.db.contacts, s.db.segments, s.db.contactSegments, tid, id, row, Known(s.segments, c.segments));
  }

  /** What holds between two contacts. */
  ghost predicate ContactsReady(p: Platform, s: Loaded, tid: Id) {
    && Fresh(p, s.next, s.db) && SegmentsMapped(s, tid) && ContactsMapped(s, tid)
    && MembersExist(s.db.contactSegments, s.db.contacts, s.db.segments)
  }

  function ContactsNow(s: Loaded, tid: Id): set<ContactView> {
    ContactsView(s.db.contacts, s.db.segments, s.db.contactSegments, tid)
  }

  /** The invites are those before, the one the entry brings, and perhaps a fresh one. */
  ghost predicate InvitesGrow(p: Platform, s: Loaded, t: Loaded, c: ContactConfig) {
    && InvitesOf(s.db.contacts) + GivenInvite(c) <= InvitesOf(t.db.contacts)
    && forall x :: x in InvitesOf(t.db.contacts) ==>
         x in InvitesOf(s.db.contacts) || x in GivenInvite(c) || exists i :: p.uuid(i) == x
  }

  function GivenInvite(c: ContactConfig): set<Id> {
    if c.inviteToken.Some? then {c.inviteToken.value} else {}
  }

  lemma InviteAdded(p: Platform, s: Loaded, c: ContactConfig, id: Id, row: Contact, t: Loaded)
    requires id !in s.db.contacts && t.db.contacts == s.db.contacts[id := row]
    requires row.inviteToken == c.inviteToken || (c.inviteToken.None? && row.inviteToken == Some(p.uuid(s.next + 2)))
    ensures InvitesGrow(p, s, t, c)
  {
    forall k | k in s.db.contacts
      ensures k in t.db.contacts && t.db.contacts[k] == s.db.contacts[k]
    {
    }
    assert id in t.db.contacts && t.db.contacts[id] == row;
  }

  lemma ProperContactReady(p: Platform, s: Loaded, tid: Id, c: ContactConfig, now: Time)
    requires ContactsReady(p, s, tid) && c.email !in s.contacts && InviteFree(c, InvitesOf(s.db.contacts))
    requires OwnInvite(p, c) && ContactOk(p, c)
    ensures AddContact(p, s, tid, c, now).Some?
    ensures
      var t := AddContact(p, s, tid, c, now).value;
      && OnlyContacts(s, t) && ContactsReady(p, t, tid) && t.contacts.Keys == s.contacts.Keys + {c.email}
      && InvitesGrow(p, s, t, c) && ContactGrown(s, t, tid, c, now)
  {
    hide NewContact, AddContact, ViewContact, DocContact, ContactOk, Known, Pairs, Fresh, OwnInvite, InvitesGrow;
    hide InvitesOf;
    hide ContactsMapped, SegmentsMapped, MembersExist, InviteFree, ContactRow;
    var id, row := p.uuid(s.next), NewContact(p, tid, c, s.next, now);
    ContactJoined(p, s, tid, c, now);
    NewContactView(p, tid, c, s.next, now, s.segments.Keys);
    var t := AddContact(p, s, tid, c, now).value;
    ContactKeepsFresh(p, s, c, id, row, t.db);
    InviteAdded(p, s, c, id, row, t);
    MappedContactPut(s, tid, id, row, t);
    MembersJoined(s, tid, id, row, c.segments);
    SameSegments(s, t, tid);
  }

  lemma ProperContactSeen(p: Platform, s: Loaded, tid: Id, c: ContactConfig, now: Time)
    requires ContactsReady(p, s, tid) && c.email !in s.contacts && InviteFree(c, InvitesOf(s.db.contacts))
    requires ContactOk(p, c) && AddContact(p, s, tid, c, now).Some?
    ensures ContactsNow(AddContact(p, s, tid, c, now).value, tid)
         == ContactsNow(s, tid) + {DocContact(c, s.segments.Keys, now)}
  {
    var id, row := p.uuid(s.next), NewContact(p, tid, c, s.next, now);
    ContactJoined(p, s, tid, c, now);
    NewContactView(p, tid, c, s.next, now, s.segments.Keys);
    hide NewContact, AddContact, ViewContact, DocContact, ContactOk, Known, Pairs, Fresh, ContactsMapped;
    hide DocLabels, ContactsView, InviteFree, InvitesOf;
    ContactViewAdded(p, s, tid, c, now, id, row);
    hide MembersExist, SegmentsMapped;
  }

  /** A proper contact is added with the memberships the document names or refused; another one is skipped. */
  lemma ContactAdded(p: Platform, s: Loaded, tid: Id, c: ContactConfig, now: Time)
    requires ContactsReady(p, s, tid) && OwnInvite(p, c)
    ensures
      var added := AddContact(p, s, tid, c, now);
      && (added.Some? <==> (ContactOk(p, c) ==> c.email !in s.contacts && InviteFree(c, InvitesOf(s.db.contacts))))
      && (added.Some? && ContactOk(p, c) ==>
            && OnlyContacts(s, added.value) && ContactsReady(p, added.value, tid)
            && added.value.contacts.Keys == s.contacts.Keys + {c.email} && InvitesGrow(p, s, added.value, c)
            && ContactGrown(s, added.value, tid, c, now)
            && ContactsNow(added.value, tid) == ContactsNow(s, tid) + {DocContact(c, s.segments.Keys, now)})
      && (added.Some? && !ContactOk(p, c) ==> added.value == s.(skipped := s.skipped + [c.email]))
  {
    if ContactOk(p, c) && c.email !in s.contacts && InviteFree(c, InvitesOf(s.db.contacts)) {
      hide AddContact, ContactsReady, ContactsNow, InvitesGrow, InviteFree, InvitesOf, DocContact, ContactGrown;
      ProperContactReady(p, s, tid, c, now);
      ProperContactSeen(p, s, tid, c, now);
    } else if ContactOk(p, c) {
      hide MembersExist, ContactsView, SegmentsMapped, DocContact;
      ContactInserted(p, s, tid, c, now);
      hide ContactsReady, Fresh, ContactsMapped, InsertContact;
    }
  }

  function ContactViews(p: Platform, contacts: seq<ContactConfig>, known: set<string>, now: Time): set<ContactView> {
    set c | c in contacts && ContactOk(p, c) :: DocContact(c, known, now)
  }

  function ContactEmails(p: Platform, contacts: seq<ContactConfig>): set<string> {
    set c | c in contacts && ContactOk(p, c) :: c.email
  }

  function GivenInvites(p: Platform, contacts: seq<ContactConfig>): set<Id> {
    set c | c in contacts && ContactOk(p, c) && c.inviteToken.Some? :: c.inviteToken.value
  }

  lemma ContactsGrow(p: Platform, contacts: seq<ContactConfig>, known: set<string>, now: Time, n: nat)
    requires n == |contacts| - 1
    ensures ContactEmails(p, contacts)
         == ContactEmails(p, contacts[..n]) + if ContactOk(p, contacts[n]) then {contacts[n].email} else {}
    ensures ContactViews(p, contacts, known, now)
         == ContactViews(p, contacts[..n], known, now)
            + if ContactOk(p, contacts[n]) then {DocContact(contacts[n], known, now)} else {}
    ensures GivenInvites(p, contacts)
         == GivenInvites(p, contacts[..n]) + if ContactOk(p, contacts[n]) then GivenInvite(contacts[n]) else {}
  {
    assert contacts == contacts[..n] + [contacts[n]];
    hide DocContact, ContactOk;
  }

  /** Among the proper entries no email and no given invite token is repeated, and no given one is taken. */
  ghost predicate Importable(p: Platform, contacts: seq<ContactConfig>, taken: set<Id>) {
    && (forall i, j :: 0 <= i < j < |contacts| && ContactOk(p, contacts[i]) && ContactOk(p, contacts[j]) ==>
          Apart(contacts[i], contacts[j]))
    && (forall i :: 0 <= i < |contacts| && ContactOk(p, contacts[i]) ==> InviteFree(contacts[i], taken))
  }

  predicate Apart(c: ContactConfig, d: ContactConfig) {
    c.email != d.email && (c.inviteToken.Some? ==> c.inviteToken != d.inviteToken)
  }

  lemma ImportableOneMore(p: Platform, contacts: seq<ContactConfig>, taken: set<Id>, n: nat)
    requires n == |contacts| - 1
    ensures Importable(p, contacts, taken) <==>
      && Importable(p, contacts[..n], taken)
      && (ContactOk(p, contacts[n]) ==>
            && contacts[n].email !in ContactEmails(p, contacts[..n])
            && InviteFree(contacts[n], taken) && InviteFree(contacts[n], GivenInvites(p, contacts[..n])))
  {
    LastApart(p, contacts[..n], contacts[n]);
    hide ContactOk, ContactEmails, GivenInvites, InviteFree, Apart;
    var before := contacts[..n];
    assert forall i :: 0 <= i < n ==> before[i] == contacts[i];
  }

  lemma LastApart(p: Platform, before: seq<ContactConfig>, c: ContactConfig)
    ensures c.email !in ContactEmails(p, before) && InviteFree(c, GivenInvites(p, before)) <==>
      forall i :: 0 <= i < |before| && ContactOk(p, before[i]) ==> Apart(before[i], c)
  {
    hide ContactOk;
    if c.email !in ContactEmails(p, before) && InviteFree(c, GivenInvites(p, before)) {
      forall i | 0 <= i < |before| && ContactOk(p, before[i])
        ensures Apart(before[i], c)
      {
        assert before[i] in before;
      }
    }
  }

  /** What the contacts loop has done so far, warnings aside. */
  ghost predicate ContactsLoaded(p: Platform, s: Loaded, t: Loaded, tid: Id, contacts: seq<ContactConfig>, now: Time) {
    && OnlyContacts(s, t) && ContactsReady(p, t, tid)
    && t.contacts.Keys == ContactEmails(p, contacts)
    && ContactsNow(t, tid) == ContactViews(p, contacts, s.segments.Keys, now)
    && Accounted(p, InvitesOf(s.db.contacts), GivenInvites(p, contacts), InvitesOf(t.db.contacts))
    && ContactsStored(p, t, tid, contacts, now)
  }

  /**
   * The proper entries of a document are added with their memberships and the others skipped, or the import is refused;
   * which of the two happens depends on repeated emails and on invite tokens that are repeated or taken.
   */
  lemma {:induction false} ContactsAdded(p: Platform, s: Loaded, tid: Id, contacts: seq<ContactConfig>, now: Time)
    requires ContactsReady(p, s, tid) && s.contacts == map[]
    requires forall i :: 0 <= i < |contacts| ==> OwnInvite(p, contacts[i])
    ensures
      var added := AddContacts(p, s, tid, contacts, now);
      && (added.Some? <==> Importable(p, contacts, InvitesOf(s.db.contacts)))
      && (added.Some? ==> ContactsLoaded(p, s, added.value, tid, contacts, now))
  {
    hide AddContact, ContactsNow, ContactsReady, ContactViews, ContactOk, OwnInvite;
    if contacts == [] {
      NoContacts(p, s, tid, now);
    } else {
      var n := |contacts| - 1;
      ContactsAdded(p, s, tid, contacts[..n], now);
      ImportableOneMore(p, contacts, InvitesOf(s.db.contacts), n);
      hide ContactsLoaded, Importable, InvitesOf, GivenInvites, ContactEmails, InviteFree;
      if AddContacts(p, s, tid, contacts[..n], now).Some? {
        ContactLoaded(p, s, AddContacts(p, s, tid, contacts[..n], now).value, tid, contacts, now);
      }
    }
  }

  /** One more contact after those before it. */
  lemma ContactLoaded(p: Platform, s: Loaded, t: Loaded, tid: Id, contacts: seq<ContactConfig>, now: Time)
    requires contacts != [] && OwnInvite(p, contacts[|contacts| - 1])
    requires ContactsLoaded(p, s, t, tid, contacts[..|contacts| - 1], now)
    ensures
      var n := |contacts| - 1;
      var added := AddContact(p, t, tid, contacts[n], now);
      && (added.Some? <==>
            (ContactOk(p, contacts[n]) ==>
               && contacts[n].email !in ContactEmails(p, contacts[..n])
               && InviteFree(contacts[n], InvitesOf(s.db.contacts))
               && InviteFree(contacts[n], GivenInvites(p, contacts[..n]))))
      && (added.Some? ==> ContactsLoaded(p, s, added.value, tid, contacts, now))
  {
    var n := |contacts| - 1;
    var c := contacts[n];
    hide AddContact, ContactsNow, ContactsReady, ContactViews, ContactOk, GivenInvites, ContactEmails, InvitesOf;
    hide OwnInvite;
    hide DocContact, InviteFree, InvitesGrow, GivenInvite, ContactsStored, ContactGrown;
    ContactAdded(p, t, tid, c, now);
    ContactsGrow(p, contacts, s.segments.Keys, now, n);
    FreeOfBoth(p, c, InvitesOf(s.db.contacts), GivenInvites(p, contacts[..n]), InvitesOf(t.db.contacts));
    hide Accounted, OnlyContacts;
    if AddContact(p, t, tid, c, now).Some? {
      var u := AddContact(p, t, tid, c, now).value;
      if ContactOk(p, c) {
        SameKnown(s, t);
        ProperLoaded(p, s, t, u, tid, contacts, now);
      } else {
        SkippedLoaded(p, s, t, u, tid, contacts, now);
      }
    }
  }

  lemma SameKnown(s: Loaded, t: Loaded)
    requires OnlyContacts(s, t)
    ensures t.segments == s.segments
  {
  }

  lemma OnlyContactsTwice(s: Loaded, t: Loaded, u: Loaded)
    requires OnlyContacts(s, t) && OnlyContacts(t, u)
    ensures OnlyContacts(s, u)
  {
  }

  lemma ProperLoaded(p: Platform, s: Loaded, t: Loaded, u: Loaded, tid: Id, contacts: seq<ContactConfig>, now: Time)
    requires contacts != [] && ContactsLoaded(p, s, t, tid, contacts[..|contacts| - 1], now)
    requires
      var c := contacts[|contacts| - 1];
      && ContactOk(p, c) && OnlyContacts(t, u) && ContactsReady(p, u, tid)
      && u.contacts.Keys == t.contacts.Keys + {c.email}
      && InvitesGrow(p, t, u, c) && ContactGrown(t, u, tid, c, now) && c.email !in t.contacts
      && ContactsNow(u, tid) == ContactsNow(t, tid) + {DocContact(c, s.segments.Keys, now)}
    ensures ContactsLoaded(p, s, u, tid, contacts, now)
  {
    var n := |contacts| - 1;
    hide ContactsReady, ContactsNow, ContactViews, ContactEmails, GivenInvites, InvitesOf, OnlyContacts, InvitesGrow;
    hide Accounted, DocContact, GivenInvite, ContactOk, ContactsStored, ContactGrown;
    OnlyContactsTwice(s, t, u);
    StoredMore(p, t, u, tid, contacts, now);
    ContactsGrow(p, contacts, s.segments.Keys, now, n);
    InvitesLoaded(p, t, u, contacts[n], InvitesOf(s.db.contacts), GivenInvites(p, contacts[..n]));
  }

  lemma SkippedLoaded(p: Platform, s: Loaded, t: Loaded, u: Loaded, tid: Id, contacts: seq<ContactConfig>, now: Time)
    requires contacts != [] && ContactsLoaded(p, s, t, tid, contacts[..|contacts| - 1], now)
    requires
      var c := contacts[|contacts| - 1];
      !ContactOk(p, c) && u == t.(skipped := t.skipped + [c.email])
    ensures ContactsLoaded(p, s, u, tid, contacts, now)
  {
    var n := |contacts| - 1;
    hide ContactsReady, ContactsNow, ContactViews, ContactEmails, GivenInvites, InvitesOf, Accounted, DocContact;
    hide GivenInvite, ContactOk, OnlyContacts, ContactsStored;
    StoredSkipping(p, t, tid, contacts, now, contacts[n].email);
    SkippingIsNothing(p, t, tid, contacts[n].email);
    ContactsGrow(p, contacts, s.segments.Keys, now, n);
    var known := s.segments.Keys;
    assert ContactEmails(p, contacts) == ContactEmails(p, contacts[..n]);
    assert ContactViews(p, contacts, known, now) == ContactViews(p, contacts[..n], known, now);
    assert GivenInvites(p, contacts) == GivenInvites(p, contacts[..n]);
    SkippingStillOnly(s, t, contacts[n].email);
  }

  lemma SkippingStillOnly(s: Loaded, t: Loaded, email: string)
    requires OnlyContacts(s, t)
    ensures OnlyContacts(s, t.(skipped := t.skipped + [email]))
  {
  }

  /** Every token is one of those there before, one of those given, or a fresh one. */
  ghost predicate Accounted(p: Platform, before: set<Id>, given: set<Id>, tokens: set<Id>) {
    before + given <= tokens
    && forall x :: x in tokens ==> x in before || x in given || exists i :: p.uuid(i) == x
  }

  lemma FreeOfBoth(p: Platform, c: ContactConfig, before: set<Id>, given: set<Id>, tokens: set<Id>)
    requires OwnInvite(p, c) && Accounted(p, before, given, tokens)
    ensures InviteFree(c, tokens) <==> InviteFree(c, before) && InviteFree(c, given)
  {
  }

  lemma InvitesLoaded(p: Platform, t: Loaded, u: Loaded, c: ContactConfig, before: set<Id>, given: set<Id>)
    requires Accounted(p, before, given, InvitesOf(t.db.contacts)) && InvitesGrow(p, t, u, c)
    ensures Accounted(p, before, given + GivenInvite(c), InvitesOf(u.db.contacts))
  {
    hide InvitesOf, GivenInvite;
  }

  lemma SkippingIsNothing(p: Platform, t: Loaded, tid: Id, email: string)
    ensures
      var u := t.(skipped := t.skipped + [email]);
      (ContactsReady(p, t, tid) ==> ContactsReady(p, u, tid)) && ContactsNow(u, tid) == ContactsNow(t, tid)
  {
    hide MembersExist, Fresh, ContactsView;
  }

  lemma SameSegments(s: Loaded, t: Loaded, tid: Id)
    requires SegmentsMapped(s, tid) && t.segments == s.segments && t.db.segments == s.db.segments
    ensures SegmentsMapped(t, tid)
  {
  }

  lemma NoContacts(p: Platform, s: Loaded, tid: Id, now: Time)
    requires ContactsReady(p, s, tid) && s.contacts == map[]
    ensures ContactsNow(s, tid) == {} && ContactViews(p, [], s.segments.Keys, now) == {}
    ensures ContactEmails(p, []) == {} && GivenInvites(p, []) == {}
  {
  }
}

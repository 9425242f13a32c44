/** The store methods behind campaign sending that loop: the recipient snapshot and the recipient list. */
module MarketingStore {
  import opened Wrappers
  import opened Schema
  import opened StoreOps
  import opened StoreInvariants
  import opened CampaignMachine

  function RowCount(db: Tables): nat {
    |db.recipients|
  }

  /** The rows made so far: one fresh id for each contact already visited. */
  ghost predicate Drawn(uuid: nat -> Id, start: nat, next: nat, visited: set<Id>, rows: map<Id, Id>) {
    && start <= next
    && (forall r :: r in rows ==> rows[r] in visited && exists i :: start <= i < next && uuid(i) == r)
    && (forall c :: c in visited ==> exists r :: r in rows && rows[r] == c)
    && (forall r, q :: r in rows && q in rows && r != q ==> rows[r] != rows[q])
  }

  lemma DrawOne(uuid: nat -> Id, start: nat, next: nat, visited: set<Id>, rows: map<Id, Id>, taken: set<Id>, c: Id)
    requires Supply(uuid, start, taken) && Drawn(uuid, start, next, visited, rows) && c !in visited
    ensures uuid(next) !in rows && uuid(next) !in taken && forall q :: q in rows ==> rows[q] != c
    ensures Drawn(uuid, start, next + 1, visited + {c}, rows[uuid(next) := c])
  {
    var more := rows[uuid(next) := c];
    forall d | d in visited + {c}
      ensures exists r :: r in more && more[r] == d
    {
      if d == c {
        assert more[uuid(next)] == c;
      } else {
        var r :| r in rows && rows[r] == d;
        assert more[r] == d;
      }
    }
    forall r | r in more
      ensures more[r] in visited + {c} && exists i :: start <= i < next + 1 && uuid(i) == r
    {
      if r != uuid(next) {
        var i :| start <= i < next && uuid(i) == r;
      } else {
        assert start <= next < next + 1;
      }
    }
  }

  /** INSERT OR IGNORE of one more contact extends the prepared rows by exactly it, unless it has a row already. */
  lemma InsertOne(db: Tables, campaign: Id, rows: map<Id, Id>, r: Id, c: Id)
    requires r !in rows && r !in db.recipients && rows.Keys !! db.recipients.Keys
    requires c in db.contacts && forall q :: q in rows ==> rows[q] != c
    ensures
      var tx := Prepared(db, campaign, rows);
      var inserted := InsertRecipient(tx, r, NewRecipient(campaign, c));
      && (inserted.None? <==> campaign !in db.campaigns && !HasRecipient(db, campaign, c))
      && (inserted.Some? ==>
            && inserted.value == Prepared(db, campaign, rows[r := c])
            && (inserted.value != tx <==> !HasRecipient(db, campaign, c))
            && RowCount(inserted.value) == RowCount(tx) + if inserted.value != tx then 1 else 0)
  {
    hide HasRecipient;
    HasSame(db, campaign, rows, c);
    PreparedPut(db, campaign, rows, r, c);
    hide Prepared;
  }

  lemma PreparedPut(db: Tables, campaign: Id, rows: map<Id, Id>, r: Id, c: Id)
    requires r !in rows && r !in db.recipients
    ensures
      var tx, more := Prepared(db, campaign, rows), Prepared(db, campaign, rows[r := c]);
      && r !in tx.recipients && tx.campaigns == db.campaigns && tx.contacts == db.contacts
      && more == if HasRecipient(db, campaign, c) then tx
                 else tx.(recipients := tx.recipients[r := NewRecipient(campaign, c)])
  {
    AddedPut(db, campaign, rows, r, c);
    hide HasRecipient, AddedRows;
    var before, after := AddedRows(db, campaign, rows), AddedRows(db, campaign, rows[r := c]);
    assert db.recipients + before[r := NewRecipient(campaign, c)]
        == (db.recipients + before)[r := NewRecipient(campaign, c)];
  }

  lemma AddedPut(db: Tables, campaign: Id, rows: map<Id, Id>, r: Id, c: Id)
    requires r !in rows
    ensures
      var before, after := AddedRows(db, campaign, rows), AddedRows(db, campaign, rows[r := c]);
      && r !in before
      && after == if HasRecipient(db, campaign, c) then before else before[r := NewRecipient(campaign, c)]
  {
    hide HasRecipient;
  }

  lemma HasSame(db: Tables, campaign: Id, rows: map<Id, Id>, c: Id)
    requires rows.Keys !! db.recipients.Keys && forall q :: q in rows ==> rows[q] != c
    ensures HasRecipient(Prepared(db, campaign, rows), campaign, c) <==> HasRecipient(db, campaign, c)
  {
    var after := Prepared(db, campaign, rows);
    assert forall q :: q in db.recipients ==> q in after.recipients && after.recipients[q] == db.recipients[q];
  }

  lemma CountOne(missing: set<Id>, done: set<Id>, c: Id)
    requires c !in done
    ensures |missing * (done + {c})| == |missing * done| + if c in missing then 1 else 0
  {
    if c in missing {
      assert missing * (done + {c}) == (missing * done) + {c};
    } else {
      assert missing * (done + {c}) == missing * done;
    }
  }

  /** The loop of PrepareCampaignRecipients after visiting `done`. */
  ghost predicate SoFar(was: Tables, tenant: Id, campaign: Id, uuid: nat -> Id, start: nat, next: nat,
                        done: set<Id>, newIds: map<Id, Id>, tx: Tables, added: nat) {
    && Drawn(uuid, start, next, done, newIds) && newIds.Keys !! was.recipients.Keys
    && tx == Prepared(was, campaign, newIds)
    && added == |Missing(was, tenant, campaign) * done| && RowCount(tx) == RowCount(was) + added
    && (campaign !in was.campaigns ==> Missing(was, tenant, campaign) * done == {})
  }

  lemma VisitOne(was: Tables, tenant: Id, campaign: Id, uuid: nat -> Id, start: nat, next: nat,
                 done: set<Id>, newIds: map<Id, Id>, tx: Tables, added: nat, contact: Id)
    requires Supply(uuid, start, was.recipients.Keys)
    requires SoFar(was, tenant, campaign, uuid, start, next, done, newIds, tx, added)
    requires contact in Eligible(was, tenant, campaign) - done
    ensures
      var inserted := InsertRecipient(tx, uuid(next), NewRecipient(campaign, contact));
      if inserted.None? then campaign !in was.campaigns && Missing(was, tenant, campaign) != {}
      else SoFar(was, tenant, campaign, uuid, start, next + 1, done + {contact}, newIds[uuid(next) := contact],
                 inserted.value, if inserted.value != tx then added + 1 else added)
  {
    hide Eligible, Missing, HasRecipient, Prepared, InsertRecipient, Drawn, Supply;
    DrawOne(uuid, start, next, done, newIds, was.recipients.Keys, contact);
    ChosenContact(was, tenant, campaign, contact);
    InsertOne(was, campaign, newIds, uuid(next), contact);
    var missing := Missing(was, tenant, campaign);
    CountOne(missing, done, contact);
    if campaign !in was.campaigns && contact !in missing {
      assert missing * (done + {contact}) == {};
    }
  }

  lemma VisitedAll(was: Tables, tenant: Id, campaign: Id, uuid: nat -> Id, start: nat, next: nat,
                   newIds: map<Id, Id>, tx: Tables, added: nat)
    requires SoFar(was, tenant, campaign, uuid, start, next, Eligible(was, tenant, campaign), newIds, tx, added)
    ensures next >= start && newIds.Keys !! was.recipients.Keys && tx == Prepared(was, campaign, newIds)
    ensures added == |Missing(was, tenant, campaign)| && RowCount(tx) == RowCount(was) + added
    ensures campaign !in was.campaigns ==> Missing(was, tenant, campaign) == {}
    ensures FreshRows(was, Eligible(was, tenant, campaign), newIds)
    ensures forall r :: r in newIds ==> exists i :: start <= i < next && uuid(i) == r
  {
    hide Missing, Eligible, FreshRows, Drawn, Prepared;
    DrawnIsFresh(uuid, start, next, Eligible(was, tenant, campaign), newIds, was);
    MissingAreChosen(was, tenant, campaign);
    assert Missing(was, tenant, campaign) * Eligible(was, tenant, campaign) == Missing(was, tenant, campaign);
  }

  /** The contact has a row of the campaign. */
  ghost predicate HasRow(db: Tables, campaign: Id, contact: Id) {
    exists r :: r in db.recipients && db.recipients[r].campaignId == campaign && db.recipients[r].contactId == contact
  }

  /** The rows there were are as before, and every new one is a queued one of an addressed contact that had none. */
  ghost predicate OnlyQueued(was: Tables, after: Tables, tenant: Id, campaign: Id) {
    && after == was.(recipients := after.recipients)
    && (forall r :: r in was.recipients ==> r in after.recipients && after.recipients[r] == was.recipients[r])
    && (forall r :: r in after.recipients && r !in was.recipients ==>
          var row := after.recipients[r];
          && row == Recipient(campaign, row.contactId, "queued", "", None, None)
          && Addressed(was, tenant, campaign, row.contactId) && !HasRow(was, campaign, row.contactId))
  }

  /** The contacts with a row are those who had one and the addressed ones. */
  ghost predicate RowsOfAddressed(was: Tables, after: Tables, tenant: Id, campaign: Id) {
    forall c :: HasRow(after, campaign, c) <==> HasRow(was, campaign, c) || Addressed(was, tenant, campaign, c)
  }

  ghost predicate SomeoneWithout(db: Tables, tenant: Id, campaign: Id) {
    exists c :: Addressed(db, tenant, campaign, c) && !HasRow(db, campaign, c)
  }

  lemma QueuedOnly(was: Tables, tenant: Id, campaign: Id, newIds: map<Id, Id>)
    requires FreshRows(was, Eligible(was, tenant, campaign), newIds)
    ensures OnlyQueued(was, Prepared(was, campaign, newIds), tenant, campaign)
  {
    EligibleIs(was, tenant, campaign);
    hide Eligible, Addressed;
  }

  /** The SELECT DISTINCT over the two junction tables. */
  method SelectAddressed(db: Tables, tenant: Id, campaign: Id) returns (chosen: set<Id>)
    ensures forall c :: c in chosen <==> Addressed(db, tenant, campaign, c)
    ensures chosen == Eligible(db, tenant, campaign)
  {
    EligibleIs(db, tenant, campaign);
    hide Eligible;
    chosen := {};
    var members := db.contactSegments;
    while members != {}
      invariant members <= db.contactSegments
      invariant forall c :: c in chosen ==> Addressed(db, tenant, campaign, c)
      invariant forall c, g :: (c, g) in db.contactSegments - members && (campaign, g) in db.campaignSegments
                               && c in db.contacts && !db.contacts[c].unsubscribed
                               && db.contacts[c].tenantId == tenant ==>
                  c in chosen
      decreases members
    {
      var m :| m in members;
      var c := m.0;
      assert m == (c, m.1);
      var targets, aimed := db.campaignSegments, false;
      while targets != {}
        invariant targets <= db.campaignSegments
        invariant aimed <==> (campaign, m.1) in db.campaignSegments - targets
        decreases targets
      {
        var q :| q in targets;
        assert q == (q.0, q.1);
        aimed := aimed || (q.0 == campaign && q.1 == m.1);
        targets := targets - {q};
      }
      if aimed && c in db.contacts && !db.contacts[c].unsubscribed && db.contacts[c].tenantId == tenant {
        chosen := chosen + {c};
      }
      members := members - {m};
    }
  }

  /**
   * Adds one queued row for every subscribed contact of the tenant in one of the campaign's segments that has none, and
   * returns how many it added. A dangling campaign is refused by the foreign key as soon as there is a row to add.
   */
  method PrepareCampaignRecipients(db: Database, tenant: Id, campaign: Id, uuid: nat -> Id, start: nat)
    returns (count: Option<nat>, next: nat, ghost newIds: map<Id, Id>)
    requires Supply(uuid, start, db.tables.recipients.Keys)
    modifies db
    ensures next >= start && newIds.Keys !! old(db.tables).recipients.Keys
    ensures forall r :: r in newIds ==> exists i :: start <= i < next && uuid(i) == r
    ensures count.Some? ==>
      && OnlyQueued(old(db.tables), db.tables, tenant, campaign)
      && RowsOfAddressed(old(db.tables), db.tables, tenant, campaign)
      && RowCount(db.tables) == RowCount(old(db.tables)) + count.value
    ensures count.Some? ==>
      && FreshRows(old(db.tables), Eligible(old(db.tables), tenant, campaign), newIds)
      && db.tables == Prepared(old(db.tables), campaign, newIds)
      && count.value == |Missing(old(db.tables), tenant, campaign)|
    ensures count.None? ==> db.tables == old(db.tables)
    ensures count.None? <==>
      campaign !in old(db.tables).campaigns && SomeoneWithout(old(db.tables), tenant, campaign)
    ensures count.None? <==> campaign !in old(db.tables).campaigns && Missing(old(db.tables), tenant, campaign) != {}
  {
    hide Eligible, Missing, HasRecipient, Prepared, FreshRows, Supply, RowCount;
    hide Addressed, HasRow, OnlyQueued, RowsOfAddressed, SomeoneWithout;
    ghost var was := db.tables;
    var chosen := SelectAddressed(db.tables, tenant, campaign);
    MissingIs(was, tenant, campaign);
    var tx, added;
    tx, added, next, newIds := InsertQueued(db.tables, tenant, campaign, chosen, uuid, start);
    if tx.None? {
      return None, next, map[];
    }
    QueuedOnly(was, tenant, campaign, newIds);
    SnapshotIsItsDefinition(was, tenant, campaign, newIds);
    db.tables := tx.value;
    return Some(added), next, newIds;
  }

  /** The loop of INSERT OR IGNORE in the transaction; None when one of them is refused. */
  method InsertQueued(was: Tables, tenant: Id, campaign: Id, chosen: set<Id>, uuid: nat -> Id, start: nat)
    returns (tx: Option<Tables>, added: nat, next: nat, ghost newIds: map<Id, Id>)
    requires Supply(uuid, start, was.recipients.Keys) && chosen == Eligible(was, tenant, campaign)
    ensures next >= start
    ensures tx.Some? ==>
      && newIds.Keys !! was.recipients.Keys && tx.value == Prepared(was, campaign, newIds)
      && FreshRows(was, chosen, newIds) && added == |Missing(was, tenant, campaign)|
      && RowCount(tx.value) == RowCount(was) + added
      && (campaign !in was.campaigns ==> Missing(was, tenant, campaign) == {})
      && forall r :: r in newIds ==> exists i :: start <= i < next && uuid(i) == r
    ensures tx.None? ==> campaign !in was.campaigns && Missing(was, tenant, campaign) != {}
  {
    hide Eligible, Missing, HasRecipient, Prepared, InsertRecipient, Drawn, FreshRows, Supply, SoFar, RowCount;
    var rows, pending := was, chosen;
    added, next, newIds := 0, start, map[];
    ghost var done: set<Id> := {};
    NothingPrepared(was, tenant, campaign, uuid, start);
    while pending != {}
      invariant next >= start && done + pending == chosen && done !! pending
      invariant SoFar(was, tenant, campaign, uuid, start, next, done, newIds, rows, added)
      decreases pending
    {
      var contact :| contact in pending;
      VisitOne(was, tenant, campaign, uuid, start, next, done, newIds, rows, added, contact);
      var inserted := InsertRecipient(rows, uuid(next), NewRecipient(campaign, contact));
      if inserted.None? {
        return None, added, next, newIds;
      }
      if inserted.value != rows {
        added := added + 1;
      }
      newIds, done := newIds[uuid(next) := contact], done + {contact};
      rows, next, pending := inserted.value, next + 1, pending - {contact};
    }
    assert done == chosen;
    VisitedAll(was, tenant, campaign, uuid, start, next, newIds, rows, added);
    tx := Some(rows);
  }

  lemma MissingIs(db: Tables, tenant: Id, campaign: Id)
    ensures Missing(db, tenant, campaign) != {} <==> SomeoneWithout(db, tenant, campaign)
  {
    EligibleIs(db, tenant, campaign);
    hide Eligible, Addressed;
    if c :| Addressed(db, tenant, campaign, c) && !HasRow(db, campaign, c) {
      assert c in Missing(db, tenant, campaign);
    }
    if c :| c in Missing(db, tenant, campaign) {
      assert Addressed(db, tenant, campaign, c) && !HasRow(db, campaign, c);
    }
  }

  lemma ChosenContact(db: Tables, tenant: Id, campaign: Id, c: Id)
    requires c in Eligible(db, tenant, campaign)
    ensures c in db.contacts && (c in Missing(db, tenant, campaign) <==> !HasRecipient(db, campaign, c))
  {
  }

  lemma MissingAreChosen(db: Tables, tenant: Id, campaign: Id)
    ensures Missing(db, tenant, campaign) <= Eligible(db, tenant, campaign)
  {
  }

  lemma NothingPrepared(db: Tables, tenant: Id, campaign: Id, uuid: nat -> Id, start: nat)
    ensures SoFar(db, tenant, campaign, uuid, start, start, {}, map[], db, 0)
  {
    assert Prepared(db, campaign, map[]).recipients == db.recipients;
    hide Missing;
    assert Missing(db, tenant, campaign) * {} == {};
  }

  lemma DrawnIsFresh(uuid: nat -> Id, start: nat, next: nat, visited: set<Id>, rows: map<Id, Id>, db: Tables)
    requires Drawn(uuid, start, next, visited, rows) && rows.Keys !! db.recipients.Keys
    ensures FreshRows(db, visited, rows)
    ensures next >= start && forall r :: r in rows ==> exists i :: start <= i < next && uuid(i) == r
  {
  }

  lemma EligibleUnchanged(db: Tables, tenant: Id, campaign: Id, newIds: map<Id, Id>)
    ensures Eligible(Prepared(db, campaign, newIds), tenant, campaign) == Eligible(db, tenant, campaign)
  {
    var after := Prepared(db, campaign, newIds);
    assert forall c :: Targeted(after, campaign, c) <==> Targeted(db, campaign, c);
  }

  /**
   * Afterwards the contacts with a row are those who had one and the subscribed contacts of the tenant in one of the
   * campaign's segments, and a repeat adds nothing.
   */
  lemma SnapshotIsItsDefinition(db: Tables, tenant: Id, campaign: Id, newIds: map<Id, Id>)
    requires FreshRows(db, Eligible(db, tenant, campaign), newIds)
    ensures
      var after := Prepared(db, campaign, newIds);
      && Missing(after, tenant, campaign) == {}
      && RowsOfAddressed(db, after, tenant, campaign)
  {
    var after := Prepared(db, campaign, newIds);
    var eligible := Eligible(db, tenant, campaign);
    EligibleUnchanged(db, tenant, campaign, newIds);
    EligibleIs(db, tenant, campaign);
    hide Eligible, Addressed;
    forall c | c in eligible || HasRow(db, campaign, c)
      ensures HasRow(after, campaign, c)
    {
      if HasRow(db, campaign, c) {
        var q :| q in db.recipients && db.recipients[q].campaignId == campaign && db.recipients[q].contactId == c;
        assert q in after.recipients && after.recipients[q] == db.recipients[q];
      } else {
        var r :| r in newIds && newIds[r] == c;
        assert r in after.recipients && after.recipients[r] == NewRecipient(campaign, c);
      }
    }
  }

  /** The recipient rows of a campaign, joined with their contacts; a campaign of another tenant has none. */
  method GetCampaignRecipients(db: Database, tenant: Id, campaign: Id) returns (targets: seq<Target>)
    requires ForeignKeys(db.tables)
    ensures Lists(db.tables, Job(campaign, tenant), targets)
  {
    var job := Job(campaign, tenant);
    targets := [];
    if campaign !in CampaignsOf(db.tables, tenant) {
      return;
    }
    var pending := db.tables.recipients.Keys;
    while pending != {}
      invariant pending <= db.tables.recipients.Keys
      invariant forall i :: 0 <= i < |targets| ==>
        Listed(db.tables, job, targets[i]) && targets[i].recipientId !in pending
      invariant forall i, j :: 0 <= i < j < |targets| ==> targets[i].recipientId != targets[j].recipientId
      invariant forall r :: (r in db.tables.recipients && r !in pending
                             && db.tables.recipients[r].campaignId == campaign) ==>
        Covers(targets, |targets|, r)
    {
      var r :| r in pending;
      pending := pending - {r};
      var row := db.tables.recipients[r];
      if row.campaignId == campaign {
        var contact := db.tables.contacts[row.contactId];
        ghost var before := targets;
        targets := targets + [Target(r, row.contactId, contact.email, contact.name)];
        assert targets[|before|].recipientId == r;
        forall q | Covers(before, |before|, q)
          ensures Covers(targets, |targets|, q)
        {
          var k :| 0 <= k < |before| && before[k].recipientId == q;
          assert targets[k].recipientId == q;
        }
      }
    }
  }

  // --- Creating and editing campaigns ---

  datatype Edited = Done | NotFound | NotDraft | Refused

  /** The loop of inserts inside the transactions of CreateCampaign, CreateCampaignFull and UpdateCampaign. */
  method InsertSegments(tx: Tables, campaign: Id, segments: seq<Id>) returns (after: Option<Tables>)
    ensures after == InsertCampaignSegments(tx, campaign, segments)
  {
    var rest := tx;
    for i := 0 to |segments|
      invariant InsertCampaignSegments(tx, campaign, segments[..i]) == Some(rest)
    {
      assert segments[..i + 1][..i] == segments[..i];
      var inserted := InsertCampaignSegment(rest, campaign, segments[i]);
      if inserted.None? {
        SegmentsRefused(tx, campaign, segments, i + 1);
        return None;
      }
      rest := inserted.value;
    }
    assert segments[..|segments|] == segments;
    return Some(rest);
  }

  lemma {:induction false} SegmentsRefused(tx: Tables, campaign: Id, segments: seq<Id>, i: nat)
    requires i <= |segments| && InsertCampaignSegments(tx, campaign, segments[..i]).None?
    ensures InsertCampaignSegments(tx, campaign, segments).None?
    decreases |segments| - i
  {
    if i < |segments| {
      assert segments[..i + 1][..i] == segments[..i];
      SegmentsRefused(tx, campaign, segments, i + 1);
    } else {
      assert segments[..i] == segments;
    }
  }

  /** Every segment exists, of whatever tenant, and none is repeated. */
  predicate Targetable(db: Tables, segments: seq<Id>) {
    && (forall i :: 0 <= i < |segments| ==> segments[i] in db.segments)
    && (forall i, j :: 0 <= i < j < |segments| ==> segments[i] != segments[j])
  }

  /** The inserts are refused exactly by a segment that is missing or repeated. */
  lemma {:induction false} InsertedExactly(db: Tables, campaign: Id, segments: seq<Id>)
    requires campaign in db.campaigns && forall q :: q in db.campaignSegments ==> q.0 != campaign
    ensures InsertCampaignSegments(db, campaign, segments).Some? <==> Targetable(db, segments)
  {
    if segments != [] {
      var n := |segments| - 1;
      InsertedExactly(db, campaign, segments[..n]);
      assert forall i :: 0 <= i < n ==> segments[..n][i] == segments[i] && segments[i] in segments[..n];
      if InsertCampaignSegments(db, campaign, segments[..n]).Some? {
        SegmentsInserted(db, campaign, segments[..n]);
      }
    }
  }

  /**
   * The campaign's segments are exactly the ones given, every other campaign's are as before, and nothing else
   * changed.
   */
  ghost predicate Targets(was: Tables, db: Tables, campaign: Id, segments: seq<Id>) {
    && db == was.(campaigns := db.campaigns, campaignSegments := db.campaignSegments)
    && (forall c :: c != campaign ==> (c in db.campaigns <==> c in was.campaigns))
    && (forall c :: c != campaign && c in was.campaigns ==> db.campaigns[c] == was.campaigns[c])
    && (forall q :: q in db.campaignSegments <==>
          if q.0 == campaign then q.1 in segments else q in was.campaignSegments)
  }

  /** CreateCampaign and CreateCampaignFull: the row and its segments together, or nothing. */
  method CreateCampaign(db: Database, id: Id, row: Campaign, segments: seq<Id>) returns (ok: bool)
    requires TargetsExist(db.tables.campaignSegments, db.tables.campaigns, db.tables.segments)
    modifies db
    ensures db.tables == After(old(db.tables), Op.CreateCampaign(id, row, segments))
    ensures ok <==> id !in old(db.tables).campaigns && Targetable(old(db.tables), segments)
    ensures ok ==> id in db.tables.campaigns && db.tables.campaigns[id] == row
                   && Targets(old(db.tables), db.tables, id, segments)
    ensures !ok ==> db.tables == old(db.tables)
  {
    hide ExecTenancy, ExecUser, ExecToken, ExecContact, ExecSegment, ExecRecipient, InsertCampaignSegments;
    var inserted := InsertCampaign(db.tables, id, row);
    if inserted.None? {
      return false;
    }
    var after := InsertSegments(inserted.value, id, segments);
    InsertedExactly(inserted.value, id, segments);
    if after.None? {
      return false;
    }
    SegmentsInserted(inserted.value, id, segments);
    db.tables := after.value;
    return true;
  }

  /** UpdateCampaign with nothing between its draft check and its transaction. */
  method UpdateCampaign(db: Database, tenant: Id, id: Id, content: Content, segments: seq<Id>) returns (result: Edited)
    modifies db
    ensures result == NotFound <==> id !in CampaignsOf(old(db.tables), tenant)
    ensures result == NotDraft <==>
      id in CampaignsOf(old(db.tables), tenant) && old(db.tables).campaigns[id].status != "draft"
    ensures result == Done ==>
      && db.tables == After(old(db.tables), EditCampaign(tenant, id, content, segments))
      && id in db.tables.campaigns
      && db.tables.campaigns[id]
         == Campaign(tenant, content.subject, content.htmlBody, content.fromName, content.fromEmail,
                     content.attachmentUrl, "draft", old(db.tables).campaigns[id].sentAt,
                     old(db.tables).campaigns[id].createdAt)
      && Targets(old(db.tables), db.tables, id, segments)
    ensures result != Done ==> db.tables == old(db.tables)
    ensures result == Refused <==>
      && id in CampaignsOf(old(db.tables), tenant) && old(db.tables).campaigns[id].status == "draft"
      && !Targetable(old(db.tables), segments)
    ensures result == Refused ==> After(old(db.tables), EditCampaign(tenant, id, content, segments)) == old(db.tables)
  {
    hide ExecTenancy, ExecUser, ExecToken, ExecContact, ExecSegment, ExecRecipient, InsertCampaignSegments;
    if id !in CampaignsOf(db.tables, tenant) {
      return NotFound;
    }
    if db.tables.campaigns[id].status != "draft" {
      return NotDraft;
    }
    var cleared := Cleared(db.tables, tenant, id, content);
    var after := InsertSegments(cleared, id, segments);
    InsertedExactly(cleared, id, segments);
    if after.None? {
      return Refused;
    }
    SegmentsInserted(cleared, id, segments);
    db.tables := after.value;
    return Done;
  }
}

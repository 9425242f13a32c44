/** What the campaign loop of an import adds to a tenant without campaigns, and exactly when it is refused. */
module ImportCampaigns {
  import opened Wrappers
  import opened Schema
  import opened StoreOps
  import opened TenantViews
  import opened TenantConfig
  import opened TenantImport
  import opened ImportPeople
  import opened ImportContacts

  function DocRecipient(r: RecipientConfig): RecipientView {
    RecipientView(r.email, r.status, r.errorMessage, r.sentAt, r.openedAt)
  }

  function DocRecipients(rows: seq<RecipientConfig>): set<RecipientView> {
    set r | r in rows :: DocRecipient(r)
  }

  predicate Repeats(rows: seq<RecipientConfig>, n: nat)
    requires n < |rows|
  {
    exists i :: 0 <= i < n && rows[i].email == rows[n].email
  }

  /** INSERT OR IGNORE: of several entries for one email the first counts. */
  function FirstRecipients(rows: seq<RecipientConfig>): set<RecipientView> {
    set i | 0 <= i < |rows| && !Repeats(rows, i) :: DocRecipient(rows[i])
  }

  /**
   * An entry with a status or a time loses its attachment; one without becomes a new draft and loses its recipients.
   */
  function DocCampaign(c: CampaignConfig, known: set<string>, now: Time): CampaignView {
    var dated := c.status != "" || c.sentAt.Some? || c.createdAt.Some?;
    CampaignView(c.subject, c.htmlBody, c.fromName, c.fromEmail, if dated then "" else c.attachmentUrl,
                 if c.status == "" then "draft" else c.status, c.sentAt,
                 if c.createdAt.Some? then c.createdAt.value else now, DocLabels(c.segments, known),
                 if dated then FirstRecipients(c.recipients) else {})
  }

  /** What holds between two campaigns, and between two recipients. */
  ghost predicate CampaignsReady(p: Platform, s: Loaded, tid: Id) {
    && Fresh(p, s.next, s.db) && SegmentsMapped(s, tid) && ContactsMapped(s, tid)
    && TargetsExist(s.db.campaignSegments, s.db.campaigns, s.db.segments)
    && RecipientsExist(s.db.recipients, s.db.campaigns, s.db.contacts)
  }

  function RecipientsNow(s: Loaded, campaign: Id): set<RecipientView> {
    Recipients(s.db.recipients, s.db.contacts, campaign)
  }

  lemma ResolvedIs(s: Loaded, tid: Id, email: string)
    requires ContactsMapped(s, tid)
    ensures Resolved(s, tid, email) == if email in s.contacts then Some(s.contacts[email]) else None
  {
  }

  lemma RecipientsPut(rows: map<Id, Recipient>, contacts: map<Id, Contact>, id: Id, row: Recipient, campaign: Id)
    requires id !in rows && row.contactId in contacts
    ensures Recipients(rows[id := row], contacts, campaign)
         == Recipients(rows, contacts, campaign)
            + if row.campaignId == campaign then {ViewRecipient(row, contacts[row.contactId].email)} else {}
  {
    var more := rows[id := row];
    hide ViewRecipient;
    forall v | v in Recipients(rows, contacts, campaign)
      ensures v in Recipients(more, contacts, campaign)
    {
      var r :| r in rows && rows[r].campaignId == campaign && rows[r].contactId in contacts
        && ViewRecipient(rows[r], contacts[rows[r].contactId].email) == v;
      assert r in more && more[r] == rows[r];
    }
    if row.campaignId == campaign {
      assert more[id] == row;
      assert ViewRecipient(row, contacts[row.contactId].email) in Recipients(more, contacts, campaign);
    }
  }

  lemma RowSeen(s: Loaded, campaign: Id, contact: Id)
    requires contact in s.db.contacts && HasRecipient(s.db, campaign, contact)
    ensures exists v :: v in RecipientsNow(s, campaign) && v.email == s.db.contacts[contact].email
  {
    var r :| r in s.db.recipients && s.db.recipients[r].campaignId == campaign
      && s.db.recipients[r].contactId == contact;
    assert ViewRecipient(s.db.recipients[r], s.db.contacts[contact].email) in RecipientsNow(s, campaign);
  }

  /** The campaign has a row for this contact. */
  lemma RowPut(db: Tables, after: Tables, id: Id, row: Recipient)
    requires id !in db.recipients && after.recipients == db.recipients[id := row]
    ensures forall x :: HasRecipient(after, row.campaignId, x) <==>
      HasRecipient(db, row.campaignId, x) || x == row.contactId
  {
    forall x
      ensures HasRecipient(after, row.campaignId, x) <==> HasRecipient(db, row.campaignId, x) || x == row.contactId
    {
      if HasRecipient(db, row.campaignId, x) {
        var r :| r in db.recipients && db.recipients[r].campaignId == row.campaignId && db.recipients[r].contactId == x;
        assert r in after.recipients && after.recipients[r] == db.recipients[r];
      }
      assert id in after.recipients && after.recipients[id] == row;
    }
  }

  /** Only the recipient table and the supply of ids change. */
  ghost predicate OnlyRecipients(s: Loaded, t: Loaded) {
    t == s.(db := s.db.(recipients := t.db.recipients), next := t.next)
  }

  lemma RecipientInserted(p: Platform, s: Loaded, tid: Id, campaign: Id, r: RecipientConfig)
    requires CampaignsReady(p, s, tid) && campaign in s.db.campaigns && r.email in s.contacts
    ensures
      var id, contact := p.uuid(s.next), s.contacts[r.email];
      var row := Recipient(campaign, contact, r.status, r.errorMessage, r.sentAt, r.openedAt);
      && id !in s.db.recipients && contact in s.db.contacts && s.db.contacts[contact].email == r.email
      && AddRecipient(p, s, tid, campaign, r) ==
         if HasRecipient(s.db, campaign, contact) then Some(s.(next := s.next + 1))
         else Some(s.(db := s.db.(recipients := s.db.recipients[id := row]), next := s.next + 1))
  {
    ResolvedIs(s, tid, r.email);
    assert HasEmail(s.db.contacts, tid, r.email, s.contacts[r.email]);
    assert p.uuid(s.next) !in s.db.recipients;
    hide HasRecipient, Fresh, SegmentsMapped, ContactsMapped, TargetsExist, RecipientsExist, RecipientsNow, Resolved;
  }

  lemma RowKeepsReady(p: Platform, s: Loaded, tid: Id, id: Id, row: Recipient, t: Loaded)
    requires CampaignsReady(p, s, tid) && id == p.uuid(s.next)
    requires row.campaignId in s.db.campaigns && row.contactId in s.db.contacts
    requires t == s.(db := s.db.(recipients := s.db.recipients[id := row]), next := s.next + 1)
    ensures CampaignsReady(p, t, tid)
  {
    hide TargetsExist, Fresh;
    UsesOneId(p, s.next, s.db, t.db);
    hide Ids;
    SameSegments(s, t, tid);
    hide SegmentsMapped, TargetsExist;
  }

  lemma IgnoredKeepsReady(p: Platform, s: Loaded, tid: Id)
    requires CampaignsReady(p, s, tid)
    ensures CampaignsReady(p, s.(next := s.next + 1), tid)
  {
    hide TargetsExist, RecipientsExist, Fresh;
    UsesOneId(p, s.next, s.db, s.db);
    SameSegments(s, s.(next := s.next + 1), tid);
    hide Ids, SegmentsMapped;
  }

  /** The entry of an unknown contact is refused, one of a contact that has a row already ignored. */
  lemma RecipientAdded(p: Platform, s: Loaded, tid: Id, campaign: Id, r: RecipientConfig)
    requires CampaignsReady(p, s, tid) && campaign in s.db.campaigns
    ensures
      var added := AddRecipient(p, s, tid, campaign, r);
      && (added.Some? <==> r.email in s.contacts)
      && (added.Some? ==>
            && OnlyRecipients(s, added.value) && CampaignsReady(p, added.value, tid)
            && RecipientsNow(added.value, campaign)
               == RecipientsNow(s, campaign)
                  + (if HasRecipient(s.db, campaign, s.contacts[r.email]) then {} else {DocRecipient(r)})
            && (forall x :: HasRecipient(added.value.db, campaign, x) <==>
                  HasRecipient(s.db, campaign, x) || x == s.contacts[r.email])
            && forall d :: d != campaign ==> RecipientsNow(added.value, d) == RecipientsNow(s, d))
  {
    if r.email !in s.contacts {
      ResolvedIs(s, tid, r.email);
      hide CampaignsReady;
    } else {
      RecipientInserted(p, s, tid, campaign, r);
      if HasRecipient(s.db, campaign, s.contacts[r.email]) {
        hide AddRecipient, HasRecipient, RecipientsNow;
        IgnoredKeepsReady(p, s, tid);
        hide CampaignsReady;
      } else {
        hide AddRecipient, HasRecipient;
        RowAdded(p, s, tid, campaign, r, AddRecipient(p, s, tid, campaign, r).value);
      }
    }
  }

  lemma RowAdded(p: Platform, s: Loaded, tid: Id, campaign: Id, r: RecipientConfig, t: Loaded)
    requires CampaignsReady(p, s, tid) && campaign in s.db.campaigns && r.email in s.contacts
    requires p.uuid(s.next) !in s.db.recipients
    requires s.contacts[r.email] in s.db.contacts && s.db.contacts[s.contacts[r.email]].email == r.email
    requires
      var row := Recipient(campaign, s.contacts[r.email], r.status, r.errorMessage, r.sentAt, r.openedAt);
      t == s.(db := s.db.(recipients := s.db.recipients[p.uuid(s.next) := row]), next := s.next + 1)
    ensures OnlyRecipients(s, t) && CampaignsReady(p, t, tid)
    ensures RecipientsNow(t, campaign) == RecipientsNow(s, campaign) + {DocRecipient(r)}
    ensures forall x :: HasRecipient(t.db, campaign, x) <==> HasRecipient(s.db, campaign, x) || x == s.contacts[r.email]
    ensures forall d :: d != campaign ==> RecipientsNow(t, d) == RecipientsNow(s, d)
  {
    var id, contact := p.uuid(s.next), s.contacts[r.email];
    var row := Recipient(campaign, contact, r.status, r.errorMessage, r.sentAt, r.openedAt);
    RowKeepsReady(p, s, tid, id, row, t);
    RowPut(s.db, t.db, id, row);
    hide CampaignsReady, HasRecipient, Recipients;
    forall d
      ensures Recipients(s.db.recipients[id := row], s.db.contacts, d)
           == Recipients(s.db.recipients, s.db.contacts, d) + if d == campaign then {DocRecipient(r)} else {}
    {
      RecipientsPut(s.db.recipients, s.db.contacts, id, row, d);
    }
  }

  lemma RepeatsBefore(rows: seq<RecipientConfig>, n: nat, i: nat)
    requires i < n <= |rows|
    ensures Repeats(rows[..n], i) == Repeats(rows, i)
  {
    assert forall k :: 0 <= k < n ==> rows[..n][k] == rows[k];
  }

  lemma RecipientsGrow(rows: seq<RecipientConfig>, n: nat)
    requires n == |rows| - 1
    ensures FirstRecipients(rows)
         == FirstRecipients(rows[..n]) + (if Repeats(rows, n) then {} else {DocRecipient(rows[n])})
  {
    hide DocRecipient, Repeats;
    var before := rows[..n];
    forall i | 0 <= i < n
      ensures before[i] == rows[i] && Repeats(before, i) == Repeats(rows, i)
    {
      RepeatsBefore(rows, n, i);
    }
    forall v
      ensures v in FirstRecipients(before) ==> v in FirstRecipients(rows)
      ensures v in FirstRecipients(rows) ==>
        v in FirstRecipients(before) || (!Repeats(rows, n) && v == DocRecipient(rows[n]))
    {
      if v in FirstRecipients(before) {
        var i :| 0 <= i < n && !Repeats(before, i) && DocRecipient(before[i]) == v;
        assert !Repeats(rows, i);
      }
      if v in FirstRecipients(rows) {
        var i :| 0 <= i <= n && !Repeats(rows, i) && DocRecipient(rows[i]) == v;
        assert i < n ==> !Repeats(before, i);
      }
    }
  }

  /** The campaign has rows for exactly the contacts of these emails. */
  ghost predicate RowsFor(s: Loaded, campaign: Id, rows: seq<RecipientConfig>) {
    forall e :: e in s.contacts ==>
      (HasRecipient(s.db, campaign, s.contacts[e]) <==> exists i :: 0 <= i < |rows| && rows[i].email == e)
  }

  lemma RowsForMore(s: Loaded, t: Loaded, tid: Id, campaign: Id, rows: seq<RecipientConfig>)
    requires ContactsMapped(s, tid) && t.contacts == s.contacts && rows != []
    requires RowsFor(s, campaign, rows[..|rows| - 1]) && rows[|rows| - 1].email in s.contacts
    requires forall x :: HasRecipient(t.db, campaign, x) <==>
                         HasRecipient(s.db, campaign, x) || x == s.contacts[rows[|rows| - 1].email]
    ensures RowsFor(t, campaign, rows)
    ensures HasRecipient(s.db, campaign, s.contacts[rows[|rows| - 1].email]) == Repeats(rows, |rows| - 1)
  {
    hide HasRecipient;
    var n := |rows| - 1;
    assert forall e, f :: e in s.contacts && f in s.contacts && s.contacts[e] == s.contacts[f] ==> e == f;
    assert forall i :: 0 <= i < n ==> rows[..n][i] == rows[i];
  }

  lemma NoRowsYet(p: Platform, s: Loaded, tid: Id, campaign: Id)
    requires CampaignsReady(p, s, tid) && RecipientsNow(s, campaign) == {}
    ensures RowsFor(s, campaign, [])
  {
    hide Fresh, SegmentsMapped, TargetsExist, HasRecipient, RecipientsExist, RecipientsNow;
    forall e | e in s.contacts
      ensures !HasRecipient(s.db, campaign, s.contacts[e])
    {
      assert HasEmail(s.db.contacts, tid, e, s.contacts[e]);
      if HasRecipient(s.db, campaign, s.contacts[e]) {
        RowSeen(s, campaign, s.contacts[e]);
      }
    }
  }

  lemma MappedNow(p: Platform, s: Loaded, tid: Id)
    requires CampaignsReady(p, s, tid)
    ensures ContactsMapped(s, tid)
  {
  }

  /** Recipients are all added, the first for each email, or the import ends at the first whose contact is unknown. */
  lemma {:induction false} RecipientsAdded(p: Platform, s: Loaded, tid: Id, campaign: Id, rows: seq<RecipientConfig>)
    requires CampaignsReady(p, s, tid) && campaign in s.db.campaigns && RecipientsNow(s, campaign) == {}
    ensures
      var added := AddRecipients(p, s, tid, campaign, rows);
      && (added.Some? <==> forall i :: 0 <= i < |rows| ==> rows[i].email in s.contacts)
      && (added.Some? ==>
            && OnlyRecipients(s, added.value) && CampaignsReady(p, added.value, tid)
            && RecipientsNow(added.value, campaign) == FirstRecipients(rows) && RowsFor(added.value, campaign, rows)
            && forall d :: d != campaign ==> RecipientsNow(added.value, d) == RecipientsNow(s, d))
  {
    hide CampaignsReady, RecipientsNow, AddRecipient, RowsFor, HasRecipient, Repeats;
    if rows == [] {
      assert FirstRecipients([]) == {};
      NoRowsYet(p, s, tid, campaign);
    } else {
      hide FirstRecipients;
      var n := |rows| - 1;
      RecipientsAdded(p, s, tid, campaign, rows[..n]);
      if AddRecipients(p, s, tid, campaign, rows[..n]).Some? {
        var t := AddRecipients(p, s, tid, campaign, rows[..n]).value;
        RecipientAdded(p, t, tid, campaign, rows[n]);
        if rows[n].email in s.contacts {
          MappedNow(p, t, tid);
          hide ContactsMapped;
          RowsForMore(t, AddRecipient(p, t, tid, campaign, rows[n]).value, tid, campaign, rows);
        }
        RecipientsGrow(rows, n);
      }
    }
  }

  lemma {:induction false} SegmentsTargeted(db: Tables, campaign: Id, segments: seq<Id>)
    requires campaign in db.campaigns && forall i :: 0 <= i < |segments| ==> segments[i] in db.segments
    requires forall i, j :: 0 <= i < j < |segments| ==> segments[i] != segments[j]
    requires forall q :: q in db.campaignSegments ==> q.0 != campaign
    ensures InsertCampaignSegments(db, campaign, segments) ==
      Some(db.(campaignSegments := db.campaignSegments + Pairs(campaign, segments)))
  {
    if segments == [] {
      assert db.campaignSegments + Pairs(campaign, []) == db.campaignSegments;
    } else {
      var n := |segments| - 1;
      SegmentsTargeted(db, campaign, segments[..n]);
      assert segments == segments[..n] + [segments[n]];
      assert Pairs(campaign, segments) == Pairs(campaign, segments[..n]) + {(campaign, segments[n])};
      assert db.campaignSegments + Pairs(campaign, segments)
          == db.campaignSegments + Pairs(campaign, segments[..n]) + {(campaign, segments[n])};
      assert (campaign, segments[n]) !in db.campaignSegments + Pairs(campaign, segments[..n]);
    }
  }

  ghost predicate Distinct(ids: seq<Id>) {
    forall i, j :: 0 <= i < j < |ids| ==> ids[i] != ids[j]
  }

  /** campaign_segments has a primary key, so a repeated segment is refused. */
  lemma {:induction false} RepeatedSegments(db: Tables, campaign: Id, segments: seq<Id>)
    requires campaign in db.campaigns && forall i :: 0 <= i < |segments| ==> segments[i] in db.segments
    requires forall q :: q in db.campaignSegments ==> q.0 != campaign
    ensures InsertCampaignSegments(db, campaign, segments).Some? <==> Distinct(segments)
  {
    if segments != [] {
      var n := |segments| - 1;
      RepeatedSegments(db, campaign, segments[..n]);
      assert Distinct(segments) ==> Distinct(segments[..n]);
      if Distinct(segments[..n]) {
        SegmentsTargeted(db, campaign, segments[..n]);
        var rest := InsertCampaignSegments(db, campaign, segments[..n]).value;
        assert segments == segments[..n] + [segments[n]];
        assert (campaign, segments[n]) in rest.campaignSegments <==> segments[n] in segments[..n];
      }
    }
  }

  /** No known name is repeated. */
  ghost predicate NamesApart(names: seq<string>, known: set<string>) {
    forall i, j :: 0 <= i < j < |names| && names[i] in known ==> names[i] != names[j]
  }

  lemma {:induction false} KnownDistinct(s: Loaded, tid: Id, names: seq<string>)
    requires SegmentsMapped(s, tid)
    ensures Distinct(Known(s.segments, names)) <==> NamesApart(names, s.segments.Keys)
    ensures forall i :: 0 <= i < |Known(s.segments, names)| ==> Known(s.segments, names)[i] in s.db.segments
  {
    if names != [] {
      var n := |names| - 1;
      KnownDistinct(s, tid, names[..n]);
      KnownMembers(s.segments, names[..n]);
      var before := Known(s.segments, names[..n]);
      NamesOneMore(names, s.segments.Keys, n);
      hide NamesApart;
      if names[n] in s.segments {
        var id := s.segments[names[n]];
        assert id in before <==> names[n] in names[..n];
        DistinctOneMore(before, id);
      } else {
        assert before + [] == before;
      }
    }
  }

  lemma DistinctOneMore(ids: seq<Id>, id: Id)
    ensures Distinct(ids + [id]) <==> Distinct(ids) && id !in ids
  {
    var more := ids + [id];
    assert forall i :: 0 <= i < |ids| ==> more[i] == ids[i];
    assert more[|ids|] == id;
  }

  lemma NamesOneMore(names: seq<string>, known: set<string>, n: nat)
    requires n == |names| - 1
    ensures NamesApart(names, known)
       <==> NamesApart(names[..n], known) && (names[n] in known ==> names[n] !in names[..n])
  {
    assert forall i :: 0 <= i < n ==> names[..n][i] == names[i];
  }

  /** A campaign entry as an export writes it. */
  ghost predicate Exportable(c: CampaignConfig) {
    && c.createdAt.Some?
    && (forall i, j :: 0 <= i < j < |c.segments| ==> c.segments[i] != c.segments[j])
    && (forall i, j :: 0 <= i < j < |c.recipients| ==> c.recipients[i].email != c.recipients[j].email)
  }

  /** For such an entry nothing is ignored and only the status and unknown recipients can be refused. */
  lemma ExportableIs(c: CampaignConfig, known: set<string>, contacts: set<string>)
    requires Exportable(c)
    ensures Dated(c) && FirstRecipients(c.recipients) == DocRecipients(c.recipients)
    ensures Accepted(c, known, contacts) <==>
      StatusOk(c.status) && forall i :: 0 <= i < |c.recipients| ==> c.recipients[i].email in contacts
  {
    hide DocRecipient;
    assert forall i :: 0 <= i < |c.recipients| ==> !Repeats(c.recipients, i);
    forall v | v in DocRecipients(c.recipients)
      ensures v in FirstRecipients(c.recipients)
    {
      var r :| r in c.recipients && DocRecipient(r) == v;
      var i :| 0 <= i < |c.recipients| && c.recipients[i] == r;
      assert !Repeats(c.recipients, i);
    }
  }

  /** The campaign with its segments but before its recipients. */
  function WithCampaign(p: Platform, s: Loaded, tid: Id, c: CampaignConfig, now: Time): Loaded {
    var id := p.uuid(s.next);
    s.(db := s.db.(campaigns := s.db.campaigns[id := NewCampaign(tid, c, now)],
                   campaignSegments := s.db.campaignSegments + Pairs(id, Known(s.segments, c.segments))),
       next := s.next + 1)
  }

  lemma CampaignTargeted(p: Platform, s: Loaded, tid: Id, c: CampaignConfig, now: Time)
    requires CampaignsReady(p, s, tid)
    ensures p.uuid(s.next) !in s.db.campaigns
    ensures
      var id := p.uuid(s.next);
      InsertCampaignSegments(s.db.(campaigns := s.db.campaigns[id := NewCampaign(tid, c, now)]), id,
                             Known(s.segments, c.segments))
      == if NamesApart(c.segments, s.segments.Keys) then Some(WithCampaign(p, s, tid, c, now).db) else None
  {
    var id := p.uuid(s.next);
    assert id !in s.db.campaigns;
    hide Fresh, ContactsMapped, RecipientsExist, NewCampaign, InsertCampaignSegments, Pairs, Known, NamesApart;
    KnownDistinct(s, tid, c.segments);
    hide SegmentsMapped;
    var inserted := s.db.(campaigns := s.db.campaigns[id := NewCampaign(tid, c, now)]);
    RepeatedSegments(inserted, id, Known(s.segments, c.segments));
    if NamesApart(c.segments, s.segments.Keys) {
      SegmentsTargeted(inserted, id, Known(s.segments, c.segments));
    }
  }

  lemma CampaignInserted(p: Platform, s: Loaded, tid: Id, c: CampaignConfig, now: Time)
    requires CampaignsReady(p, s, tid)
    ensures p.uuid(s.next) !in s.db.campaigns
    ensures Exec(s.db, CreateCampaign(p.uuid(s.next), NewCampaign(tid, c, now), Known(s.segments, c.segments)))
         == if NamesApart(c.segments, s.segments.Keys) then Some(WithCampaign(p, s, tid, c, now).db) else None
  {
    hide CampaignsReady, NewCampaign, Known, Pairs, WithCampaign, NamesApart;
    hide InsertCampaignSegments, ExecTenancy, ExecUser, ExecToken, ExecContact, ExecSegment, ExecRecipient;
    CampaignTargeted(p, s, tid, c, now);
  }

  lemma WithCampaignReady(p: Platform, s: Loaded, tid: Id, c: CampaignConfig, now: Time)
    requires CampaignsReady(p, s, tid)
    ensures CampaignsReady(p, WithCampaign(p, s, tid, c, now), tid)
  {
    var t := WithCampaign(p, s, tid, c, now);
    hide Known, Pairs, NewCampaign, Fresh;
    UsesOneId(p, s.next, s.db, t.db);
    hide Ids;
    SameSegments(s, t, tid);
    TargetsJoined(s, tid, p.uuid(s.next), NewCampaign(tid, c, now), c.segments);
    hide SegmentsMapped, TargetsExist;
  }

  lemma TargetsJoined(s: Loaded, tid: Id, id: Id, row: Campaign, names: seq<string>)
    requires SegmentsMapped(s, tid) && TargetsExist(s.db.campaignSegments, s.db.campaigns, s.db.segments)
    ensures TargetsExist(s.db.campaignSegments + Pairs(id, Known(s.segments, names)), s.db.campaigns[id := row],
                         s.db.segments)
  {
    KnownMembers(s.segments, names);
  }

  lemma WithCampaignSeen(p: Platform, s: Loaded, tid: Id, c: CampaignConfig, now: Time)
    requires CampaignsReady(p, s, tid)
    ensures
      var t, id := WithCampaign(p, s, tid, c, now), p.uuid(s.next);
      && RecipientsNow(t, id) == {}
      && (forall d :: RecipientsNow(t, d) == RecipientsNow(s, d))
      && Labels(t.db.segments, t.db.campaignSegments, tid, id) == DocLabels(c.segments, s.segments.Keys)
      && forall d :: d != id ==>
           Labels(t.db.segments, t.db.campaignSegments, tid, d) == Labels(s.db.segments, s.db.campaignSegments, tid, d)
  {
    var id := p.uuid(s.next);
    assert id !in s.db.campaigns;
    hide Fresh, ContactsMapped;
    JoinedLabels(s, tid, c.segments, id, s.db.campaignSegments);
    forall d | d != id
      ensures Labels(s.db.segments, s.db.campaignSegments + Pairs(id, Known(s.segments, c.segments)), tid, d)
           == Labels(s.db.segments, s.db.campaignSegments, tid, d)
    {
      OtherLabels(s.db.segments, s.db.campaignSegments, id, Known(s.segments, c.segments), tid, d);
    }
    hide Labels, Pairs, Known, SegmentsMapped, DocLabels;
  }

  /** Only the campaign tables and the supply of ids change. */
  ghost predicate OnlyCampaigns(s: Loaded, t: Loaded) {
    t == s.(db := s.db.(campaigns := t.db.campaigns, campaignSegments := t.db.campaignSegments,
                        recipients := t.db.recipients), next := t.next)
  }

  /** When the import accepts the entry. */
  ghost predicate Accepted(c: CampaignConfig, known: set<string>, contacts: set<string>) {
    && c.status in {"", "draft", "sending", "sent", "failed"} && NamesApart(c.segments, known)
    && (c.status != "" || c.sentAt.Some? || c.createdAt.Some? ==>
          forall i :: 0 <= i < |c.recipients| ==> c.recipients[i].email in contacts)
  }

  lemma NewCampaignView(tid: Id, c: CampaignConfig, now: Time, known: set<string>)
    ensures ViewCampaign(NewCampaign(tid, c, now), DocLabels(c.segments, known),
                         if Dated(c) then FirstRecipients(c.recipients) else {})
         == DocCampaign(c, known, now)
    ensures NewCampaign(tid, c, now).tenantId == tid
  {
  }

  /** The campaign with its recipients, if it has any in the document that count. */
  ghost function Filled(p: Platform, s: Loaded, tid: Id, c: CampaignConfig, now: Time): Option<Loaded> {
    var t := WithCampaign(p, s, tid, c, now);
    if Dated(c) then AddRecipients(p, t, tid, p.uuid(s.next), c.recipients) else Some(t)
  }

  /** Adding the recipients of a campaign just inserted. */
  lemma CampaignFilled(p: Platform, s: Loaded, tid: Id, c: CampaignConfig, now: Time)
    requires CampaignsReady(p, s, tid)
    ensures
      var id := p.uuid(s.next);
      var filled := Filled(p, s, tid, c, now);
      && (filled.Some? <==>
            (Dated(c) ==> forall i :: 0 <= i < |c.recipients| ==> c.recipients[i].email in s.contacts.Keys))
      && (filled.Some? ==>
            && OnlyCampaigns(s, filled.value) && CampaignsReady(p, filled.value, tid)
            && filled.value.db.campaigns == s.db.campaigns[id := NewCampaign(tid, c, now)]
            && RecipientsNow(filled.value, id) == (if Dated(c) then FirstRecipients(c.recipients) else {})
            && Labels(filled.value.db.segments, filled.value.db.campaignSegments, tid, id)
               == DocLabels(c.segments, s.segments.Keys)
            && forall d :: d != id ==>
              && RecipientsNow(filled.value, d) == RecipientsNow(s, d)
              && Labels(filled.value.db.segments, filled.value.db.campaignSegments, tid, d)
                 == Labels(s.db.segments, s.db.campaignSegments, tid, d))
  {
    WithCampaignReady(p, s, tid, c, now);
    WithCampaignSeen(p, s, tid, c, now);
    hide CampaignsReady, Known, Pairs, Labels, RecipientsNow, NewCampaign, DocLabels, FirstRecipients, Dated, RowsFor;
    if Dated(c) {
      RecipientsAdded(p, WithCampaign(p, s, tid, c, now), tid, p.uuid(s.next), c.recipients);
    }
    hide AddRecipients;
  }

  /** What the new tables say of the campaigns. */
  lemma CampaignsLook(p: Platform, s: Loaded, t: Loaded, tid: Id, c: CampaignConfig, now: Time, id: Id)
    requires id !in s.db.campaigns && t.db.campaigns == s.db.campaigns[id := NewCampaign(tid, c, now)]
    requires RecipientsNow(t, id) == (if Dated(c) then FirstRecipients(c.recipients) else {})
    requires Labels(t.db.segments, t.db.campaignSegments, tid, id) == DocLabels(c.segments, s.segments.Keys)
    requires forall d :: d != id ==>
               && RecipientsNow(t, d) == RecipientsNow(s, d)
               && Labels(t.db.segments, t.db.campaignSegments, tid, d)
                  == Labels(s.db.segments, s.db.campaignSegments, tid, d)
    ensures CampaignAt(t.db, tid, id) == DocCampaign(c, s.segments.Keys, now)
    ensures forall d :: d in s.db.campaigns ==> CampaignAt(t.db, tid, d) == CampaignAt(s.db, tid, d)
  {
    NewCampaignView(tid, c, now, s.segments.Keys);
    hide Labels, Recipients, NewCampaign, DocCampaign, DocLabels, FirstRecipients, ViewCampaign, Dated;
  }

  /** The campaign is added as the document describes it, and no campaign that was there looks different. */
  lemma CampaignAdded(p: Platform, s: Loaded, tid: Id, c: CampaignConfig, now: Time)
    requires CampaignsReady(p, s, tid)
    ensures
      var added, id := AddCampaign(p, s, tid, c, now), p.uuid(s.next);
      && (added.Some? <==> Accepted(c, s.segments.Keys, s.contacts.Keys))
      && (added.Some? ==>
            && OnlyCampaigns(s, added.value) && CampaignsReady(p, added.value, tid)
            && id !in s.db.campaigns && added.value.db.campaigns == s.db.campaigns[id := NewCampaign(tid, c, now)]
            && CampaignAt(added.value.db, tid, id) == DocCampaign(c, s.segments.Keys, now)
            && forall d :: d in s.db.campaigns ==> CampaignAt(added.value.db, tid, d) == CampaignAt(s.db, tid, d))
  {
    hide Exec, CampaignsReady, Known, Labels, RecipientsNow, NewCampaign, DocCampaign, DocLabels, FirstRecipients;
    hide ViewCampaign, WithCampaign, OnlyCampaigns, NamesApart, Filled, CampaignAt, AddCampaign;
    CampaignInserted(p, s, tid, c, now);
    CampaignFilled(p, s, tid, c, now);
    AddCampaignIs(p, s, tid, c, now);
    if AddCampaign(p, s, tid, c, now).Some? {
      CampaignsLook(p, s, AddCampaign(p, s, tid, c, now).value, tid, c, now, p.uuid(s.next));
    }
  }

  lemma AddCampaignIs(p: Platform, s: Loaded, tid: Id, c: CampaignConfig, now: Time)
    requires Exec(s.db, CreateCampaign(p.uuid(s.next), NewCampaign(tid, c, now), Known(s.segments, c.segments)))
          == if NamesApart(c.segments, s.segments.Keys) then Some(WithCampaign(p, s, tid, c, now).db) else None
    ensures AddCampaign(p, s, tid, c, now)
         == if StatusOk(c.status) && NamesApart(c.segments, s.segments.Keys) then Filled(p, s, tid, c, now) else None
  {
    hide Exec, Known, NewCampaign, AddRecipients, Pairs, NamesApart, StatusOk, Dated;
  }

  /** The campaigns of the tenant, in the order of the entries that made them. */
  ghost predicate Made(s: Loaded, tid: Id, docs: seq<CampaignConfig>, known: set<string>, now: Time, ids: seq<Id>) {
    && Enumerates(ids, CampaignsOf(s.db, tid)) && |ids| == |docs|
    && forall i :: 0 <= i < |ids| ==>
         ids[i] in s.db.campaigns && CampaignAt(s.db, tid, ids[i]) == DocCampaign(docs[i], known, now)
  }

  lemma MadeOne(s: Loaded, t: Loaded, tid: Id, docs: seq<CampaignConfig>, known: set<string>, now: Time, ids: seq<Id>,
                id: Id)
    requires docs != [] && Made(s, tid, docs[..|docs| - 1], known, now, ids)
    requires id !in s.db.campaigns && t.db.campaigns.Keys == s.db.campaigns.Keys + {id}
    requires t.db.campaigns == s.db.campaigns[id := t.db.campaigns[id]] && t.db.campaigns[id].tenantId == tid
    requires CampaignAt(t.db, tid, id) == DocCampaign(docs[|docs| - 1], known, now)
    requires forall d :: d in s.db.campaigns ==> CampaignAt(t.db, tid, d) == CampaignAt(s.db, tid, d)
    ensures Made(t, tid, docs, known, now, ids + [id])
  {
    hide CampaignAt, DocCampaign;
    assert CampaignsOf(t.db, tid) == CampaignsOf(s.db, tid) + {id};
    forall c | c in CampaignsOf(t.db, tid)
      ensures c in ids + [id]
    {
      assert c == id || c in ids;
    }
  }

  /** The entries are all added as they describe themselves, or the import is refused at the first unacceptable one. */
  lemma {:induction false} CampaignsAdded(p: Platform, s: Loaded, tid: Id, docs: seq<CampaignConfig>, now: Time)
    returns (ids: seq<Id>)
    requires CampaignsReady(p, s, tid) && CampaignsOf(s.db, tid) == {}
    ensures
      var added := AddCampaigns(p, s, tid, docs, now);
      && (added.Some? <==> forall i :: 0 <= i < |docs| ==> Accepted(docs[i], s.segments.Keys, s.contacts.Keys))
      && (added.Some? ==>
            && OnlyCampaigns(s, added.value) && CampaignsReady(p, added.value, tid)
            && Made(added.value, tid, docs, s.segments.Keys, now, ids))
  {
    hide AddCampaign, CampaignsReady, Accepted;
    ids := [];
    if docs != [] {
      hide Made, CampaignsOf;
      var n := |docs| - 1;
      ids := CampaignsAdded(p, s, tid, docs[..n], now);
      if AddCampaigns(p, s, tid, docs[..n], now).Some? {
        var t := AddCampaigns(p, s, tid, docs[..n], now).value;
        CampaignAdded(p, t, tid, docs[n], now);
        NewCampaignView(tid, docs[n], now, s.segments.Keys);
        hide NewCampaign, CampaignAt, DocCampaign;
        if AddCampaigns(p, s, tid, docs, now).Some? {
          MadeOne(t, AddCampaigns(p, s, tid, docs, now).value, tid, docs, s.segments.Keys, now, ids, p.uuid(t.next));
          ids := ids + [p.uuid(t.next)];
        }
      }
    }
  }
}

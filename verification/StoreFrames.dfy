/** What the operations of the request handlers leave alone while the campaign worker is busy. */
module StoreFrames {
  import opened Wrappers
  import opened Schema
  import opened StoreOps
  import opened StoreInvariants
  import opened TenantStore

  /** The operations request handlers and the import perform; the others are the worker's own. */
  predicate Handler(op: Op) {
    !op.PrepareRecipients? && !op.SetRecipientStatus? && !op.SetCampaignStatus?
  }

  lemma TenancyUntouched(db: Tables, op: Op)
    requires TenancyOp(op) && !op.DeleteTenant?
    ensures After(db, op).campaigns == db.campaigns && After(db, op).recipients == db.recipients
  {
    hide ExecUser, ExecToken, ExecContact, ExecSegment, ExecCampaign, ExecRecipient;
    hide DeleteAllOwned;
  }

  lemma UsersUntouched(db: Tables, op: Op)
    requires UserOp(op)
    ensures After(db, op).campaigns == db.campaigns && After(db, op).recipients == db.recipients
  {
    hide ExecTenancy, ExecToken, ExecContact, ExecSegment, ExecCampaign, ExecRecipient;
    hide Scoped, EmailTaken, ResetMatches, ContactsOf;
  }

  lemma ClientsUntouched(db: Tables, op: Op)
    requires op.CreateClient? || op.EditClient? || op.DeleteClient? || op.CreateKey?
    ensures After(db, op).campaigns == db.campaigns && After(db, op).recipients == db.recipients
  {
    hide ExecTenancy, ExecUser, ExecContact, ExecSegment, ExecCampaign, ExecRecipient, CodeAccepted;
  }

  lemma GrantsUntouched(db: Tables, op: Op)
    requires op.CreateAuthCode? || op.UseAuthCode? || op.CreateRefreshToken? || op.RevokeRefreshToken?
    ensures After(db, op).campaigns == db.campaigns && After(db, op).recipients == db.recipients
  {
    hide ExecTenancy, ExecUser, ExecContact, ExecSegment, ExecCampaign, ExecRecipient, CodeAccepted;
  }

  lemma TokensUntouched(db: Tables, op: Op)
    requires TokenOp(op)
    ensures After(db, op).campaigns == db.campaigns && After(db, op).recipients == db.recipients
  {
    hide After;
    if op.CreateClient? || op.EditClient? || op.DeleteClient? || op.CreateKey? {
      ClientsUntouched(db, op);
    } else {
      GrantsUntouched(db, op);
    }
  }

  lemma ContactsUntouched(db: Tables, op: Op)
    requires ContactOp(op)
    ensures After(db, op).campaigns == db.campaigns && After(db, op).recipients == db.recipients
  {
    hide ExecTenancy, ExecUser, ExecToken, ExecSegment, ExecCampaign, ExecRecipient, ContactClashes, ContactsOf;
  }

  lemma SegmentsUntouched(db: Tables, op: Op)
    requires SegmentOp(op)
    ensures After(db, op).campaigns == db.campaigns && After(db, op).recipients == db.recipients
  {
    hide ExecTenancy, ExecUser, ExecToken, ExecContact, ExecCampaign, ExecRecipient, SegmentNameTaken, SegmentsOf;
  }

  lemma CampaignsUntouched(db: Tables, op: Op)
    requires !CampaignOp(op) && !op.DeleteTenant?
    ensures After(db, op).campaigns == db.campaigns
  {
    if RecipientOp(op) {
      hide HasRecipient, AddedRows, Eligible, ExecTenancy, ExecUser, ExecToken, ExecContact, ExecSegment, ExecCampaign;
    } else {
      hide After;
      RowsUntouched(db, op);
    }
  }

  lemma RowsUntouched(db: Tables, op: Op)
    requires !CampaignOp(op) && !op.DeleteTenant? && !RecipientOp(op)
    ensures After(db, op).campaigns == db.campaigns && After(db, op).recipients == db.recipients
  {
    hide After;
    if ContactOp(op) {
      ContactsUntouched(db, op);
    } else if SegmentOp(op) {
      SegmentsUntouched(db, op);
    } else if TenancyOp(op) {
      TenancyUntouched(db, op);
    } else if UserOp(op) {
      UsersUntouched(db, op);
    } else {
      TokensUntouched(db, op);
    }
  }

  lemma CampaignWritesKeepRows(db: Tables, op: Op)
    requires op.CreateCampaign? || op.EditCampaign? || op.SetCampaignStatus?
    ensures After(db, op).recipients == db.recipients
  {
    hide ExecTenancy, ExecUser, ExecToken, ExecContact, ExecSegment, ExecRecipient;
    hide InsertCampaignSegments;
  }

  lemma CampaignCreatedFramed(db: Tables, op: Op, c: Id)
    requires op.CreateCampaign? && c in After(db, op).campaigns
    ensures c in db.campaigns ==> After(db, op).campaigns[c] == db.campaigns[c]
    ensures c !in db.campaigns ==> op.id == c && After(db, op).campaigns[c] == op.campaign
  {
    hide ExecTenancy, ExecUser, ExecToken, ExecContact, ExecSegment, ExecRecipient;
    hide InsertCampaignSegments;
  }

  lemma CampaignEditFramed(db: Tables, op: Op, c: Id)
    requires op.EditCampaign? && c in After(db, op).campaigns
    ensures c in db.campaigns
    ensures After(db, op).campaigns[c].status == db.campaigns[c].status
    ensures After(db, op).campaigns[c].tenantId == db.campaigns[c].tenantId
    ensures After(db, op).campaigns[c].sentAt == db.campaigns[c].sentAt
  {
    CampaignEditIs(db, op);
    hide After;
  }

  lemma CampaignEditIs(db: Tables, op: Op)
    requires op.EditCampaign?
    ensures
      || After(db, op).campaigns == db.campaigns
      || (op.id in db.campaigns
          && After(db, op).campaigns == db.campaigns[op.id := UpdatedCampaign(db.campaigns[op.id], op.content)])
  {
    hide ExecTenancy, ExecUser, ExecToken, ExecContact, ExecSegment, ExecRecipient;
    hide InsertCampaignSegments, UpdatedCampaign;
  }

  lemma CampaignDeleteFramed(db: Tables, op: Op, c: Id)
    requires op.DeleteCampaign? && c in After(db, op).campaigns
    ensures c in db.campaigns && After(db, op).campaigns[c] == db.campaigns[c]
  {
    hide ExecTenancy, ExecUser, ExecToken, ExecContact, ExecSegment, ExecRecipient;
  }

  lemma CampaignWriteFramed(db: Tables, op: Op, c: Id)
    requires op.CreateCampaign? || op.EditCampaign? || op.DeleteCampaign?
    requires c in After(db, op).campaigns
    ensures c in db.campaigns ==>
      && After(db, op).campaigns[c].status == db.campaigns[c].status
      && After(db, op).campaigns[c].tenantId == db.campaigns[c].tenantId
      && After(db, op).campaigns[c].sentAt == db.campaigns[c].sentAt
    ensures c !in db.campaigns ==> op.CreateCampaign? && op.id == c && After(db, op).campaigns[c] == op.campaign
  {
    hide After;
    if op.CreateCampaign? {
      CampaignCreatedFramed(db, op, c);
    } else if op.EditCampaign? {
      CampaignEditFramed(db, op, c);
    } else {
      CampaignDeleteFramed(db, op, c);
    }
  }

  /** No handler changes a campaign's status or tenant, and only a creation adds one. */
  lemma StatusFramed(db: Tables, op: Op, c: Id)
    requires Sound(db) && Handler(op) && c in After(db, op).campaigns
    ensures c in db.campaigns ==>
      && After(db, op).campaigns[c].status == db.campaigns[c].status
      && After(db, op).campaigns[c].tenantId == db.campaigns[c].tenantId
      && After(db, op).campaigns[c].sentAt == db.campaigns[c].sentAt
    ensures c !in db.campaigns ==> op.CreateCampaign? && op.id == c && After(db, op).campaigns[c] == op.campaign
  {
    hide Sound;
    if op.DeleteTenant? {
      TenantGone(db, op.id, c);
    } else if !CampaignOp(op) {
      hide After;
      CampaignsUntouched(db, op);
    } else {
      hide After;
      CampaignWriteFramed(db, op, c);
    }
  }

  lemma TenantGone(db: Tables, tid: Id, c: Id)
    requires Sound(db) && c in After(db, DeleteTenant(tid)).campaigns
    ensures c in db.campaigns && After(db, DeleteTenant(tid)).campaigns[c] == db.campaigns[c]
  {
    hide Sound, Detachable, ExecTenancy, ExecUser, ExecToken, ExecContact, ExecSegment, ExecCampaign, ExecRecipient;
    LocalTenantsGo(db, tid);
  }

  predicate SameButOpened(r: Recipient, q: Recipient) {
    r == q.(openedAt := r.openedAt)
  }

  ghost predicate RowFramed(db: Tables, op: Op, after: Tables, r: Id) {
    && (r in after.recipients ==>
          || (r in db.recipients && SameButOpened(db.recipients[r], after.recipients[r]))
          || (op.CreateRecipient? && op.id == r && after.recipients[r] == op.recipient))
    && (r in db.recipients && db.recipients[r].campaignId in after.campaigns ==>
          r in after.recipients && SameButOpened(db.recipients[r], after.recipients[r]))
  }

  lemma RecipientWriteFramed(db: Tables, op: Op, r: Id)
    requires op.CreateRecipient? || op.RecordOpen?
    ensures RowFramed(db, op, After(db, op), r)
  {
    hide ExecTenancy, ExecUser, ExecToken, ExecContact, ExecSegment, ExecCampaign, HasRecipient;
    hide Prepared, AddedRows, Marked;
    var was, rows := db.recipients, After(db, op).recipients;
    assert rows == was || rows == was[op.id := rows[op.id]];
  }

  lemma DeletionFramed(db: Tables, op: Op, r: Id)
    requires Sound(db) && (op.DeleteCampaign? || op.DeleteTenant?)
    ensures RowFramed(db, op, After(db, op), r)
  {
    hide ExecUser, ExecToken, ExecContact, ExecSegment, ExecRecipient, Sound;
    if op.DeleteTenant? {
      LocalTenantsGo(db, op.id);
      hide ExecTenancy, ExecCampaign, DeleteAllOwned;
    } else {
      hide ExecTenancy, Scoped, ContactsOf, SegmentsOf;
    }
  }

  /** A handler adds recipient rows only by importing them, and removes them only with their campaign. */
  lemma RowsFramed(db: Tables, op: Op, r: Id)
    requires Sound(db) && Handler(op)
    ensures RowFramed(db, op, After(db, op), r)
  {
    hide Sound, After;
    if op.DeleteTenant? || op.DeleteCampaign? {
      DeletionFramed(db, op, r);
    } else if op.CreateCampaign? || op.EditCampaign? {
      CampaignWritesKeepRows(db, op);
    } else if RecipientOp(op) {
      RecipientWriteFramed(db, op, r);
    } else {
      RowsUntouched(db, op);
    }
  }

  lemma DeletedRowsExactly(db: Tables, op: Op, r: Id)
    requires Sound(db) && (op.DeleteCampaign? || op.DeleteTenant?) && r in After(db, op).recipients
    ensures r in db.recipients && After(db, op).recipients[r] == db.recipients[r]
  {
    hide ExecUser, ExecToken, ExecContact, ExecSegment, ExecRecipient, Sound;
    if op.DeleteTenant? {
      LocalTenantsGo(db, op.id);
      hide ExecTenancy, ExecCampaign, DeleteAllOwned;
    } else {
      hide ExecTenancy, Scoped, ContactsOf, SegmentsOf;
    }
  }

  /** No other handler changes a recipient row in any way. */
  lemma RowsExactly(db: Tables, op: Op, r: Id)
    requires Sound(db) && Handler(op) && !op.RecordOpen? && !op.CreateRecipient? && r in After(db, op).recipients
    ensures r in db.recipients && After(db, op).recipients[r] == db.recipients[r]
  {
    hide Sound, After;
    if op.DeleteTenant? || op.DeleteCampaign? {
      DeletedRowsExactly(db, op, r);
    } else if op.CreateCampaign? || op.EditCampaign? {
      CampaignWritesKeepRows(db, op);
    } else {
      RowsUntouched(db, op);
    }
  }

  lemma OpeningWrites(db: Tables, id: Id, now: Time)
    ensures
      After(db, RecordOpen(id, now)) ==
      if id in db.recipients && db.recipients[id].openedAt.None? then
        db.(recipients := db.recipients[id := db.recipients[id].(openedAt := Some(now))])
      else db
  {
    hide ExecTenancy, ExecUser, ExecToken, ExecContact, ExecSegment, ExecCampaign;
  }

  /** The first opening is recorded with its time, and no later one. */
  lemma OpeningIs(db: Tables, id: Id, now: Time)
    ensures
      var after := After(db, RecordOpen(id, now)).recipients;
      && after.Keys == db.recipients.Keys
      && (forall r :: r in db.recipients && (r != id || db.recipients[r].openedAt.Some?) ==>
            after[r] == db.recipients[r])
      && (id in db.recipients && db.recipients[id].openedAt.None? ==>
            after[id] == db.recipients[id].(openedAt := Some(now)))
  {
    OpeningWrites(db, id, now);
    hide After;
  }

  lemma CreatedRecipientIs(db: Tables, op: Op, r: Id)
    requires op.CreateRecipient? && r in After(db, op).recipients
    ensures
      || (r in db.recipients && After(db, op).recipients[r] == db.recipients[r])
      || (r == op.id && After(db, op).recipients[r] == op.recipient)
  {
    hide ExecTenancy, ExecUser, ExecToken, ExecContact, ExecSegment, ExecCampaign, HasRecipient;
  }
}

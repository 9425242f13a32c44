/**
 * What the stores leave alone: codes, refresh tokens and keys change only by their own statements or go with their
 * tenant.
 */
module TokenFrames {
  import opened Wrappers
  import opened Schema
  import opened StoreOps

  /** No code, refresh token or key is made, changed or revived. */
  ghost predicate TokensOnlyGo(db: Tables, after: Tables) {
    && (forall c :: c in after.authCodes ==> c in db.authCodes && after.authCodes[c] == db.authCodes[c])
    && (forall t :: t in after.refreshTokens ==> t in db.refreshTokens && after.refreshTokens[t] == db.refreshTokens[t])
    && (forall k :: k in after.keys ==> k in db.keys && after.keys[k] == db.keys[k])
  }

  lemma TokensMayGo(db: Tables, after: Tables)
    requires after.authCodes == db.authCodes && after.refreshTokens == db.refreshTokens && after.keys == db.keys
    ensures TokensOnlyGo(db, after)
  {
  }

  lemma DeleteOwnedTokens(db: Tables, table: TenantTable, tid: Id)
    requires DeleteOwned(db, table, tid).Some?
    ensures TokensOnlyGo(db, DeleteOwned(db, table, tid).value)
  {
    var after := DeleteOwned(db, table, tid).value;
    if !table.AuthCodeTable? && !table.RefreshTokenTable? && !table.KeyTable? {
      hide CampaignsOf, ContactsOf, SegmentsOf, Scoped, TokensOnlyGo;
      TokensMayGo(db, after);
    }
  }

  lemma {:induction false} CascadeTokens(db: Tables, tables: seq<TenantTable>, tid: Id)
    requires DeleteAllOwned(db, tables, tid).Some?
    ensures TokensOnlyGo(db, DeleteAllOwned(db, tables, tid).value)
  {
    hide DeleteOwned;
    if tables != [] {
      var n := |tables| - 1;
      CascadeTokens(db, tables[..n], tid);
      DeleteOwnedTokens(DeleteAllOwned(db, tables[..n], tid).value, tables[n], tid);
    }
  }

  lemma TenancyTokens(db: Tables, op: Op)
    requires TenancyOp(op)
    ensures TokensOnlyGo(db, After(db, op))
  {
    hide ExecUser, ExecToken, ExecContact, ExecSegment, ExecCampaign, ExecRecipient, DeleteAllOwned;
    if op.DeleteTenant? && DeleteAllOwned(db, CASCADE, op.id).Some? {
      CascadeTokens(db, CASCADE, op.id);
    } else {
      hide TokensOnlyGo;
      TokensMayGo(db, After(db, op));
    }
  }

  lemma UserTokens(db: Tables, op: Op)
    requires UserOp(op)
    ensures After(db, op).authCodes == db.authCodes && After(db, op).refreshTokens == db.refreshTokens
    ensures After(db, op).keys == db.keys
  {
    hide ExecTenancy, ExecToken, ExecContact, ExecSegment, ExecCampaign, ExecRecipient;
    hide Scoped, EmailTaken, ResetMatches, ContactsOf;
  }

  lemma ContactTokens(db: Tables, op: Op)
    requires ContactOp(op)
    ensures After(db, op).authCodes == db.authCodes && After(db, op).refreshTokens == db.refreshTokens
    ensures After(db, op).keys == db.keys
  {
    hide ExecTenancy, ExecUser, ExecToken, ExecSegment, ExecCampaign, ExecRecipient;
    hide ContactClashes, ContactsOf;
  }

  lemma SegmentTokens(db: Tables, op: Op)
    requires SegmentOp(op)
    ensures After(db, op).authCodes == db.authCodes && After(db, op).refreshTokens == db.refreshTokens
    ensures After(db, op).keys == db.keys
  {
    hide ExecTenancy, ExecUser, ExecToken, ExecContact, ExecCampaign, ExecRecipient;
    hide SegmentNameTaken, SegmentsOf;
  }

  lemma CampaignTokens(db: Tables, op: Op)
    requires CampaignOp(op)
    ensures After(db, op).authCodes == db.authCodes && After(db, op).refreshTokens == db.refreshTokens
    ensures After(db, op).keys == db.keys
  {
    hide ExecTenancy, ExecUser, ExecToken, ExecContact, ExecSegment, ExecRecipient;
    hide InsertCampaignSegments, CampaignsOf, WithStatus, UpdatedCampaign;
  }

  lemma RecipientTokens(db: Tables, op: Op)
    requires RecipientOp(op)
    ensures After(db, op).authCodes == db.authCodes && After(db, op).refreshTokens == db.refreshTokens
    ensures After(db, op).keys == db.keys
  {
    hide ExecTenancy, ExecUser, ExecToken, ExecContact, ExecSegment, ExecCampaign;
    hide HasRecipient, AddedRows, Eligible;
  }

  lemma CodeWrites(db: Tables, op: Op)
    requires TokenOp(op) && !op.CreateAuthCode? && !op.UseAuthCode?
    ensures After(db, op).authCodes == db.authCodes
  {
    hide ExecTenancy, ExecUser, ExecContact, ExecSegment, ExecCampaign, ExecRecipient;
  }

  lemma RefreshWrites(db: Tables, op: Op)
    requires TokenOp(op) && !op.CreateRefreshToken? && !op.RevokeRefreshToken?
    ensures After(db, op).refreshTokens == db.refreshTokens
  {
    hide ExecTenancy, ExecUser, ExecContact, ExecSegment, ExecCampaign, ExecRecipient, CodeAccepted;
  }

  lemma KeyWrites(db: Tables, op: Op)
    requires TokenOp(op) && !op.CreateKey?
    ensures After(db, op).keys == db.keys
  {
    hide ExecTenancy, ExecUser, ExecContact, ExecSegment, ExecCampaign, ExecRecipient, CodeAccepted;
  }

  lemma KeysFramed(db: Tables, op: Op, k: Id)
    requires !op.CreateKey? && k in After(db, op).keys
    ensures k in db.keys && After(db, op).keys[k] == db.keys[k]
  {
    hide After;
    if TokenOp(op) {
      KeyWrites(db, op);
    } else {
      OthersFramed(db, op);
    }
  }

  /** Operations without a code statement of their own make, change and revive no code. */
  lemma CodesFramed(db: Tables, op: Op, c: Id)
    requires !op.CreateAuthCode? && !op.UseAuthCode? && c in After(db, op).authCodes
    ensures c in db.authCodes && After(db, op).authCodes[c] == db.authCodes[c]
  {
    hide After;
    if TokenOp(op) {
      CodeWrites(db, op);
    } else {
      OthersFramed(db, op);
    }
  }

  lemma RefreshFramed(db: Tables, op: Op, t: Id)
    requires !op.CreateRefreshToken? && !op.RevokeRefreshToken? && t in After(db, op).refreshTokens
    ensures t in db.refreshTokens && After(db, op).refreshTokens[t] == db.refreshTokens[t]
  {
    hide After;
    if TokenOp(op) {
      RefreshWrites(db, op);
    } else {
      OthersFramed(db, op);
    }
  }

  lemma OthersFramed(db: Tables, op: Op)
    requires !TokenOp(op)
    ensures TokensOnlyGo(db, After(db, op))
  {
    hide After;
    if TenancyOp(op) {
      TenancyTokens(db, op);
    } else if UserOp(op) {
      UserTokens(db, op);
    } else if ContactOp(op) {
      ContactTokens(db, op);
    } else if SegmentOp(op) {
      SegmentTokens(db, op);
    } else if CampaignOp(op) {
      CampaignTokens(db, op);
    } else {
      RecipientTokens(db, op);
    }
  }
}

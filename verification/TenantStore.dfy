/** Deleting a tenant: the ordered cascade of backend/tenant/tenant.go in one transaction. */
module TenantStore {
  import opened Wrappers
  import opened Schema
  import opened StoreOps
  import opened StoreInvariants

  /** Nothing that would stay behind points at a contact or a user of the tenant. */
  ghost predicate Detachable(db: Tables, tid: Id) {
    && (forall r :: r in db.recipients && db.recipients[r].contactId in ContactsOf(db, tid) ==>
          db.recipients[r].campaignId in CampaignsOf(db, tid))
    && (forall c :: c in db.contacts && db.contacts[c].userId.Some?
                    && db.contacts[c].userId.value in Scoped(db.users, tid) ==>
          c in ContactsOf(db, tid))
  }

  /** The tables without the rows the tenant owns, and without the junction rows that hang on them. */
  function WithoutOwned(db: Tables, tid: Id): Tables {
    Tables(
      db.tenants,
      db.users - Scoped(db.users, tid),
      map k | k in db.clients && db.clients[k].tenantId != tid :: db.clients[k],
      map k | k in db.authCodes && db.authCodes[k].tenantId != tid :: db.authCodes[k],
      map k | k in db.refreshTokens && db.refreshTokens[k].tenantId != tid :: db.refreshTokens[k],
      map k | k in db.keys && db.keys[k].tenantId != tid :: db.keys[k],
      db.contacts - ContactsOf(db, tid),
      db.segments - SegmentsOf(db, tid),
      (set p | p in db.contactSegments && p.0 !in ContactsOf(db, tid) && p.1 !in SegmentsOf(db, tid)),
      db.campaigns - CampaignsOf(db, tid),
      (set p | p in db.campaignSegments && p.0 !in CampaignsOf(db, tid) && p.1 !in SegmentsOf(db, tid)),
      map r | r in db.recipients && db.recipients[r].campaignId !in CampaignsOf(db, tid) :: db.recipients[r])
  }

  function WithoutTenant(db: Tables, tid: Id): Tables {
    WithoutOwned(db, tid).(tenants := db.tenants - {tid})
  }

  datatype Outcome = Deleted | ConstraintViolated | TenantNotFound

  method Delete(db: Database, id: Id) returns (outcome: Outcome)
    requires ForeignKeys(db.tables)
    modifies db
    ensures outcome == if !Detachable(old(db.tables), id) then ConstraintViolated
                       else if id !in old(db.tables).tenants then TenantNotFound else Deleted
    ensures db.tables == if outcome == Deleted then WithoutTenant(old(db.tables), id) else old(db.tables)
    ensures db.tables == After(old(db.tables), DeleteTenant(id))
  {
    hide Detachable, DeleteOwned, WithoutOwned;
    var tx, i := db.tables, 0;
    CascadeIs(db.tables, id);
    while i < |CASCADE|
      invariant i <= |CASCADE| && db.tables == old(db.tables)
      invariant DeleteAllOwned(db.tables, CASCADE[..i], id) == Some(tx)
    {
      var step := DeleteOwned(tx, CASCADE[i], id);
      assert CASCADE[..i + 1][..i] == CASCADE[..i];
      if step.None? {
        RefusedEarly(db.tables, i + 1, id);
        return ConstraintViolated;
      }
      tx, i := step.value, i + 1;
    }
    assert CASCADE[..i] == CASCADE;
    if id !in tx.tenants {
      return TenantNotFound;
    }
    tx := tx.(tenants := tx.tenants - {id});
    db.tables := tx;
    return Deleted;
  }

  lemma {:induction false} RefusedEarly(db: Tables, i: nat, tid: Id)
    requires i <= |CASCADE| && DeleteAllOwned(db, CASCADE[..i], tid).None?
    ensures DeleteAllOwned(db, CASCADE, tid).None?
    decreases |CASCADE| - i
  {
    if i < |CASCADE| {
      assert CASCADE[..i + 1][..i] == CASCADE[..i];
      RefusedEarly(db, i + 1, tid);
    } else {
      assert CASCADE[..i] == CASCADE;
    }
  }

  /** The tables after the first k statements of the cascade, when none of them is refused. */
  function Stage(db: Tables, tid: Id, k: nat): Tables {
    var end := WithoutOwned(db, tid);
    Tables(
      db.tenants,
      if k < 8 then db.users else end.users,
      if k < 7 then db.clients else end.clients,
      if k < 4 then db.authCodes else end.authCodes,
      if k < 5 then db.refreshTokens else end.refreshTokens,
      if k < 6 then db.keys else end.keys,
      if k < 2 then db.contacts else end.contacts,
      if k < 3 then db.segments else end.segments,
      if k < 2 then db.contactSegments
      else if k < 3 then (set p | p in db.contactSegments && p.0 !in ContactsOf(db, tid))
      else end.contactSegments,
      if k < 1 then db.campaigns else end.campaigns,
      if k < 1 then db.campaignSegments
      else if k < 3 then (set p | p in db.campaignSegments && p.0 !in CampaignsOf(db, tid))
      else end.campaignSegments,
      if k < 1 then db.recipients else end.recipients)
  }

  ghost predicate RecipientsDetach(db: Tables, tid: Id) {
    forall r :: r in db.recipients && db.recipients[r].contactId in ContactsOf(db, tid) ==>
      db.recipients[r].campaignId in CampaignsOf(db, tid)
  }

  lemma StageStep(db: Tables, tid: Id, k: nat)
    requires k < |CASCADE| && ForeignKeys(db) && (k >= 2 ==> RecipientsDetach(db, tid))
    ensures
      var next := DeleteOwned(Stage(db, tid, k), CASCADE[k], tid);
      && (next.Some? <==> (k == 1 ==> RecipientsDetach(db, tid)) && (k == 7 ==> Detachable(db, tid)))
      && (next.Some? ==> next.value == Stage(db, tid, k + 1))
  {
    if k == 1 {
      hide Stage, DeleteContacts;
      ContactsGoExactly(db, tid);
    } else if k == 7 {
      hide Stage, DeleteUsers;
      UsersGoExactly(db, tid);
    } else {
      hide Detachable, RecipientsDetach;
      PlainStep(db, tid, k);
    }
  }

  lemma PlainStep(db: Tables, tid: Id, k: nat)
    requires k < |CASCADE| && k != 1 && k != 7
    ensures DeleteOwned(Stage(db, tid, k), CASCADE[k], tid) == Some(Stage(db, tid, k + 1))
  {
    var stage, next := Stage(db, tid, k), Stage(db, tid, k + 1);
    if k == 0 {
      assert CampaignsOf(stage, tid) == CampaignsOf(db, tid);
    } else if k == 2 {
      assert SegmentsOf(stage, tid) == SegmentsOf(db, tid);
      var rest := DeleteSegments(stage, SegmentsOf(db, tid));
      assert rest.contactSegments == next.contactSegments && rest.campaignSegments == next.campaignSegments;
      assert rest == next;
    }
  }

  lemma ContactsGoExactly(db: Tables, tid: Id)
    requires ForeignKeys(db)
    ensures
      var next := DeleteContacts(Stage(db, tid, 1), ContactsOf(Stage(db, tid, 1), tid));
      && (next.Some? <==> RecipientsDetach(db, tid))
      && (next.Some? ==> next.value == Stage(db, tid, 2))
  {
    var stage := Stage(db, tid, 1);
    assert ContactsOf(stage, tid) == ContactsOf(db, tid);
    if RecipientsDetach(db, tid) {
      assert forall r :: r in stage.recipients ==> stage.recipients[r].contactId !in ContactsOf(db, tid);
    } else {
      var r :| r in db.recipients && db.recipients[r].contactId in ContactsOf(db, tid)
        && db.recipients[r].campaignId !in CampaignsOf(db, tid);
      assert r in stage.recipients;
    }
  }

  lemma UsersGoExactly(db: Tables, tid: Id)
    requires ForeignKeys(db) && RecipientsDetach(db, tid)
    ensures
      var next := DeleteUsers(Stage(db, tid, 7), Scoped(Stage(db, tid, 7).users, tid));
      && (next.Some? <==> Detachable(db, tid))
      && (next.Some? ==> next.value == Stage(db, tid, 8))
  {
    var stage := Stage(db, tid, 7);
    if !Detachable(db, tid) {
      var c :| c in db.contacts && db.contacts[c].userId.Some? && db.contacts[c].userId.value in Scoped(db.users, tid)
        && c !in ContactsOf(db, tid);
      assert c in stage.contacts;
    }
  }

  lemma {:induction false} StageReached(db: Tables, tid: Id, k: nat)
    requires k <= |CASCADE| && ForeignKeys(db)
    ensures
      var reached := DeleteAllOwned(db, CASCADE[..k], tid);
      && (reached.Some? <==> (k >= 2 ==> RecipientsDetach(db, tid)) && (k >= 8 ==> Detachable(db, tid)))
      && (reached.Some? ==> reached.value == Stage(db, tid, k))
  {
    hide Stage, DeleteOwned, RecipientsDetach;
    if k > 0 {
      StageReached(db, tid, k - 1);
      assert CASCADE[..k][..k - 1] == CASCADE[..k - 1];
      if DeleteAllOwned(db, CASCADE[..k - 1], tid).Some? {
        StageStep(db, tid, k - 1);
      }
    } else {
      StageZero(db, tid);
    }
    DetachableParts(db, tid);
  }

  lemma StageZero(db: Tables, tid: Id)
    ensures Stage(db, tid, 0) == db && Stage(db, tid, 8) == WithoutOwned(db, tid)
  {
  }

  lemma DetachableParts(db: Tables, tid: Id)
    ensures Detachable(db, tid) ==> RecipientsDetach(db, tid)
  {
  }

  /** The cascade is refused exactly when something outside points in; otherwise it leaves WithoutOwned. */
  lemma CascadeIs(db: Tables, tid: Id)
    requires ForeignKeys(db)
    ensures
      var rest := DeleteAllOwned(db, CASCADE, tid);
      && (rest.Some? <==> Detachable(db, tid))
      && (rest.Some? ==> rest.value == WithoutOwned(db, tid) && rest.value.tenants == db.tenants)
  {
    assert CASCADE[..8] == CASCADE;
    StageReached(db, tid, 8);
    StageZero(db, tid);
  }

  /** A tenant whose links stay inside can always be deleted, and without it the tables are still sound. */
  lemma LocalTenantsGo(db: Tables, tid: Id)
    requires Sound(db)
    ensures Detachable(db, tid)
    ensures tid in db.tenants ==> Exec(db, DeleteTenant(tid)) == Some(WithoutTenant(db, tid))
    ensures tid !in db.tenants ==> Exec(db, DeleteTenant(tid)) == None
    ensures tid in db.tenants ==> Sound(WithoutTenant(db, tid))
  {
    assert Detachable(db, tid);
    CascadeIs(db, tid);
    hide Sound, WithoutOwned, Detachable, DeleteAllOwned;
    SoundKept(db, DeleteTenant(tid));
  }

  /** No row owned by the tenant is left in any table, and no row refers to one. */
  ghost predicate NothingLeft(db: Tables, tid: Id) {
    && tid !in db.tenants
    && (forall k :: k in db.users ==> db.users[k].tenantId != tid)
    && (forall k :: k in db.clients ==> db.clients[k].tenantId != tid)
    && (forall k :: k in db.authCodes ==> db.authCodes[k].tenantId != tid)
    && (forall k :: k in db.refreshTokens ==> db.refreshTokens[k].tenantId != tid)
    && (forall k :: k in db.keys ==> db.keys[k].tenantId != tid)
    && (forall k :: k in db.contacts ==> db.contacts[k].tenantId != tid)
    && (forall k :: k in db.segments ==> db.segments[k].tenantId != tid)
    && (forall k :: k in db.campaigns ==> db.campaigns[k].tenantId != tid)
  }

  /** Every row another tenant owns is unchanged, and so is every link between two such rows. */
  ghost predicate OthersKept(db: Tables, after: Tables, tid: Id) {
    && (forall k :: k in db.tenants && k != tid ==> k in after.tenants && after.tenants[k] == db.tenants[k])
    && (forall k :: k in db.users && db.users[k].tenantId != tid ==> k in after.users && after.users[k] == db.users[k])
    && (forall k :: k in db.clients && db.clients[k].tenantId != tid ==>
          k in after.clients && after.clients[k] == db.clients[k])
    && (forall k :: k in db.authCodes && db.authCodes[k].tenantId != tid ==>
          k in after.authCodes && after.authCodes[k] == db.authCodes[k])
    && (forall k :: k in db.refreshTokens && db.refreshTokens[k].tenantId != tid ==>
          k in after.refreshTokens && after.refreshTokens[k] == db.refreshTokens[k])
    && (forall k :: k in db.keys && db.keys[k].tenantId != tid ==> k in after.keys && after.keys[k] == db.keys[k])
    && (forall k :: k in db.contacts && db.contacts[k].tenantId != tid ==>
          k in after.contacts && after.contacts[k] == db.contacts[k])
    && (forall k :: k in db.segments && db.segments[k].tenantId != tid ==>
          k in after.segments && after.segments[k] == db.segments[k])
    && (forall k :: k in db.campaigns && db.campaigns[k].tenantId != tid ==>
          k in after.campaigns && after.campaigns[k] == db.campaigns[k])
    && (forall p :: p in db.contactSegments && p.0 in after.contacts && p.1 in after.segments ==>
        p in after.contactSegments)
    && (forall p :: p in db.campaignSegments && p.0 in after.campaigns && p.1 in after.segments ==>
        p in after.campaignSegments)
    && (forall r :: r in db.recipients && db.recipients[r].campaignId in after.campaigns ==>
          r in after.recipients && after.recipients[r] == db.recipients[r])
  }

  lemma LeavesNothing(db: Tables, tid: Id)
    ensures NothingLeft(WithoutTenant(db, tid), tid)
  {
  }

  lemma KeepsOthers(db: Tables, tid: Id)
    ensures OthersKept(db, WithoutTenant(db, tid), tid)
  {
  }

  /**
   * After any run of the stores, deleting an existing tenant succeeds, leaves nothing of it and nothing dangling, and
   * keeps everything of the others; deleting an unknown one changes nothing.
   */
  lemma DeletionIsCleanAfterAnyRun(db: Tables, ops: seq<Op>, tid: Id)
    requires Sound(db) && AllInContext(db, ops)
    ensures
      var before := AfterAll(db, ops);
      var after := After(before, DeleteTenant(tid));
      if tid in before.tenants then Sound(after) && NothingLeft(after, tid) && OthersKept(before, after, tid)
      else after == before
  {
    RunsAreSound(db, ops);
    var before := AfterAll(db, ops);
    hide Sound, Detachable, DeleteAllOwned, NothingLeft, OthersKept, WithoutTenant;
    LocalTenantsGo(before, tid);
    LeavesNothing(before, tid);
    KeepsOthers(before, tid);
  }
}

/** What a campaign's status, its recipient rows and the mails sent say about each other, in every reachable state. */
module CampaignMeaning {
  import opened Wrappers
  import opened Schema
  import opened StoreOps
  import opened StoreInvariants
  import opened StoreFrames
  import opened CampaignMachine

  datatype Row = Row(contact: Id, status: string)

  /** The recipient rows of one campaign, as far as sending is concerned. */
  function Rows(db: Tables, c: Id): map<Id, Row> {
    map r | r in db.recipients && db.recipients[r].campaignId == c ::
      Row(db.recipients[r].contactId, db.recipients[r].status)
  }

  ghost predicate AllSent(rows: map<Id, Row>) {
    forall r :: r in rows ==> rows[r].status == "sent"
  }

  ghost predicate NoneQueued(rows: map<Id, Row>) {
    forall r :: r in rows ==> rows[r].status == "sent" || rows[r].status == "failed"
  }

  ghost predicate SomeFailed(rows: map<Id, Row>) {
    exists r :: r in rows && rows[r].status == "failed"
  }

  ghost predicate KnownStatuses(rows: map<Id, Row>) {
    forall r :: r in rows ==> rows[r].status == "queued" || rows[r].status == "sent" || rows[r].status == "failed"
  }

  /** The contact was eligible when the campaign's recipients were prepared. */
  predicate Chosen(eligible: map<Id, set<Id>>, c: Id, contact: Id) {
    c in eligible && contact in eligible[c]
  }

  ghost predicate OnlyEligible(rows: map<Id, Row>, c: Id, eligible: map<Id, set<Id>>) {
    forall r :: r in rows ==> Chosen(eligible, c, rows[r].contact)
  }

  /** What the status of a campaign promises about its rows and about whether mail was attempted. */
  ghost predicate StatusHonest(status: string, rows: map<Id, Row>, mailed: bool) {
    || (status == "draft" && rows == map[] && !mailed)
    || status == "sending"
    || (status == "sent" && AllSent(rows))
    || (status == "failed" && NoneQueued(rows) && (SomeFailed(rows) || (rows == map[] && !mailed)))
  }

  ghost predicate Honest(w: World, c: Id) {
    c in w.db.campaigns && c !in w.imported ==>
      var rows := Rows(w.db, c);
      && StatusHonest(w.db.campaigns[c].status, rows, Mailed(w.log, c))
      && KnownStatuses(rows)
      && OnlyEligible(rows, c, w.eligible)
  }

  ghost predicate MailEligible(w: World, m: Mail) {
    m.campaign !in w.imported ==> Chosen(w.eligible, m.campaign, m.contact)
  }

  /** The targets are exactly the campaign's rows, and the first n of them are marked as allSuccess says. */
  ghost predicate Progress(rows: map<Id, Row>, targets: seq<Target>, n: nat, allSuccess: bool) {
    && n <= |targets|
    && (forall r :: r in rows ==> Covers(targets, |targets|, r))
    && (forall k :: 0 <= k < |targets| ==> targets[k].recipientId in rows)
    && (forall k :: 0 <= k < n ==>
          rows[targets[k].recipientId].status == "sent" || rows[targets[k].recipientId].status == "failed")
    && (allSuccess <==> forall k :: 0 <= k < n ==> rows[targets[k].recipientId].status == "sent")
  }

  ghost predicate TargetsOwned(w: World, c: Id, targets: seq<Target>) {
    && (forall k :: 0 <= k < |targets| ==>
          && targets[k].recipientId in w.used
          && (targets[k].recipientId in w.db.recipients ==> w.db.recipients[targets[k].recipientId].campaignId == c))
    && (forall i, j :: 0 <= i < j < |targets| ==> targets[i].recipientId != targets[j].recipientId)
    && (c !in w.imported ==> forall k :: 0 <= k < |targets| ==> Chosen(w.eligible, c, targets[k].contactId))
  }

  ghost predicate Native(w: World, c: Id) {
    c in w.db.campaigns && c !in w.imported
  }

  ghost predicate WorkerHonest(w: World) {
    match w.worker
    case Idle => true
    case Loading(_) => true
    case Listing(job, _) => true
    case Sending(job, _, targets, next, allSuccess) =>
      && TargetsOwned(w, job.campaign, targets)
      && (Native(w, job.campaign) ==> Progress(Rows(w.db, job.campaign), targets, next, allSuccess))
    case Marking(job, _, targets, next, allSuccess, _) =>
      && TargetsOwned(w, job.campaign, targets)
      && (Native(w, job.campaign) ==> Progress(Rows(w.db, job.campaign), targets, next, allSuccess))
    case _ => Native(w, w.worker.job.campaign) ==> Rows(w.db, w.worker.job.campaign) == map[]
  }

  ghost predicate Meaning(w: World) {
    && w.db.recipients.Keys <= w.used
    && (forall c :: Honest(w, c))
    && (forall i :: 0 <= i < |w.log| ==> MailEligible(w, w.log[i]))
    && WorkerHonest(w)
  }

  // --- Handlers ---

  lemma HandlerRowsUsed(w: World, op: Op)
    requires Sound(w.db) && w.db.recipients.Keys <= w.used && Handled(w, op).Some?
    ensures Handled(w, op).value.db.recipients.Keys <= Handled(w, op).value.used
  {
    hide Sound, After;
    forall r | r in After(w.db, op).recipients
      ensures r in Handled(w, op).value.used
    {
      RowsFramed(w.db, op, r);
    }
  }

  lemma HandlerKeepsRows(w: World, op: Op, c: Id)
    requires Sound(w.db) && Handled(w, op).Some? && Native(Handled(w, op).value, c)
    ensures Rows(Handled(w, op).value.db, c) == Rows(w.db, c)
  {
    var after := After(w.db, op);
    hide Sound, After;
    forall r
      ensures r in Rows(after, c) ==> r in Rows(w.db, c) && Rows(w.db, c)[r] == Rows(after, c)[r]
      ensures r in Rows(w.db, c) ==> r in Rows(after, c)
    {
      RowsFramed(w.db, op, r);
    }
  }

  lemma NoRowsWithoutCampaign(db: Tables, c: Id)
    requires Sound(db) && c !in db.campaigns
    ensures Rows(db, c) == map[]
  {
  }

  lemma HandlerKeepsHonest(w: World, op: Op, c: Id)
    requires Inv(w) && Honest(w, c) && Handled(w, op).Some?
    ensures Honest(Handled(w, op).value, c)
  {
    var v := Handled(w, op).value;
    hide Sound, After, InContext;
    if Native(v, c) {
      HandlerKeepsRows(w, op, c);
      StatusFramed(w.db, op, c);
      if c !in w.db.campaigns {
        NoRowsWithoutCampaign(w.db, c);
        assert !Mailed(w.log, c);
      }
      hide Rows;
    }
  }

  lemma HandlerKeepsTargets(w: World, op: Op, c: Id, targets: seq<Target>)
    requires Sound(w.db) && Handled(w, op).Some? && TargetsOwned(w, c, targets)
    ensures TargetsOwned(Handled(w, op).value, c, targets)
  {
    var v := Handled(w, op).value;
    hide Sound, After, InContext;
    forall k | 0 <= k < |targets|
      ensures targets[k].recipientId in v.used
      ensures targets[k].recipientId in v.db.recipients ==> v.db.recipients[targets[k].recipientId].campaignId == c
    {
      var r := targets[k].recipientId;
      RowsFramed(w.db, op, r);
      assert r !in NewIds(op);
    }
  }

  lemma HandlerKeepsMeaning(w: World, op: Op)
    requires Inv(w) && Meaning(w) && Handled(w, op).Some?
    ensures Meaning(Handled(w, op).value)
  {
    var v := Handled(w, op).value;
    HandlerRowsUsed(w, op);
    forall c ensures Honest(v, c) {
      HandlerKeepsHonest(w, op, c);
    }
    if !w.worker.Idle? {
      var c := w.worker.job.campaign;
      if Native(v, c) && !w.worker.Loading? {
        HandlerKeepsRows(w, op, c);
        StatusFramed(w.db, op, c);
      }
      if w.worker.Sending? || w.worker.Marking? {
        HandlerKeepsTargets(w, op, c, w.worker.targets);
      }
    }
    hide Sound, After, InContext, Rows, TargetsOwned, Progress, Honest;
  }

  // --- The worker's own steps ---

  function NewStatus(w: World, l: Label): string {
    if l.Claim? then "sending" else if l.Finish? && w.worker.Sending? && w.worker.allSuccess then "sent" else "failed"
  }

  predicate SetsStatus(l: Label) {
    l.Claim? || l.Finish? || l.Fail?
  }

  /** What a status step changes: the status of the worker's campaign, nothing else in the tables. */
  lemma StatusStep(w: World, l: Label)
    requires Inv(w) && SetsStatus(l) && Step(w, l).Some?
    ensures
      var v, job := Step(w, l).value, w.worker.job;
      && v.db == w.db.(campaigns := v.db.campaigns) && v.db.campaigns.Keys == w.db.campaigns.Keys
      && v == w.(db := v.db, worker := v.worker)
      && (forall c :: Rows(v.db, c) == Rows(w.db, c))
      && (forall c :: c in w.db.campaigns && c != job.campaign ==> v.db.campaigns[c] == w.db.campaigns[c])
      && (job.campaign in w.db.campaigns ==> v.db.campaigns[job.campaign].status == NewStatus(w, l))
      && (if l.Claim? then v.worker == Fetching(job, w.worker.campaign) else v.worker == Idle)
  {
    hide Exec, After;
    hide Sound;
    StatusSetKeepsSound(w, w.worker.job, NewStatus(w, l), l.now);
    hide WithCampaignStatus, MailedWithin;
  }

  lemma OtherStatusStaysHonest(w: World, l: Label, c: Id)
    requires Inv(w) && Meaning(w) && SetsStatus(l) && Step(w, l).Some? && c != w.worker.job.campaign
    ensures Honest(Step(w, l).value, c)
  {
    hide Exec, After;
    StatusStep(w, l);
    hide Step, Inv, Sound, Rows, Mailed, StatusHonest, KnownStatuses, OnlyEligible, WorkerHonest, MailEligible;
    assert Honest(w, c);
  }

  lemma ClaimIsHonest(w: World, l: Label)
    requires Inv(w) && Meaning(w) && l.Claim? && Step(w, l).Some?
    ensures Honest(Step(w, l).value, w.worker.job.campaign)
  {
    hide Exec, After;
    StatusStep(w, l);
    hide Step, Inv, Sound, Rows, Mailed, KnownStatuses, OnlyEligible, WorkerHonest, MailEligible;
    hide AllSent, NoneQueued, SomeFailed;
    assert Honest(w, w.worker.job.campaign);
  }

  lemma FinishIsHonest(w: World, l: Label)
    requires Inv(w) && Meaning(w) && l.Finish? && Step(w, l).Some?
    ensures Honest(Step(w, l).value, w.worker.job.campaign)
  {
    hide Exec, After;
    StatusStep(w, l);
    var c := w.worker.job.campaign;
    assert Honest(w, c) && WorkerHonest(w);
    assert w.worker.Sending? && w.worker.next == |w.worker.targets| by {
      hide Sound, Rows, Mailed, Meaning, Distinct, MailedWithin, DistinctContacts, WithCampaignStatus;
    }
    hide Step, Inv, Meaning, Sound, Rows, Mailed, KnownStatuses, OnlyEligible, MailEligible, TargetsOwned;
    hide AllSent, NoneQueued, SomeFailed;
    if Native(w, c) {
      ProgressEnds(Rows(w.db, c), w.worker.targets, w.worker.allSuccess);
    }
    hide Progress;
  }

  lemma FailIsHonest(w: World, l: Label)
    requires Inv(w) && Meaning(w) && l.Fail? && Step(w, l).Some?
    ensures Honest(Step(w, l).value, w.worker.job.campaign)
  {
    hide Exec, After;
    StatusStep(w, l);
    hide Sound, Rows, Mailed, KnownStatuses, OnlyEligible, MailEligible, TargetsOwned, AllSent, SomeFailed, Progress;
    hide MailedWithin, DistinctContacts, WithCampaignStatus, Distinct;
    var c := w.worker.job.campaign;
    assert Honest(w, c) && WorkerHonest(w) && WorkerInv(w) && w.worker.Failing?;
    hide Step, Inv, Meaning;
  }

  lemma StatusStaysHonest(w: World, l: Label, c: Id)
    requires Inv(w) && Meaning(w) && SetsStatus(l) && Step(w, l).Some?
    ensures Honest(Step(w, l).value, c)
  {
    hide Inv, Meaning, Honest, Exec, After;
    assert !w.worker.Idle?;
    hide Step;
    if c != w.worker.job.campaign {
      OtherStatusStaysHonest(w, l, c);
    } else if l.Claim? {
      ClaimIsHonest(w, l);
    } else if l.Finish? {
      FinishIsHonest(w, l);
    } else {
      FailIsHonest(w, l);
    }
  }

  lemma StatusKeepsMeaning(w: World, l: Label)
    requires Inv(w) && Meaning(w) && SetsStatus(l) && Step(w, l).Some?
    ensures Meaning(Step(w, l).value)
  {
    hide Exec, After;
    StatusStep(w, l);
    forall c ensures Honest(Step(w, l).value, c) {
      StatusStaysHonest(w, l, c);
    }
    hide Step, Sound, Rows, Honest, Progress, TargetsOwned;
  }

  lemma SentIsNotQueued(rows: map<Id, Row>)
    ensures AllSent(rows) ==> NoneQueued(rows)
  {
  }

  /** When every target is marked, all rows are sent, or none is queued and one failed. */
  lemma ProgressEnds(rows: map<Id, Row>, targets: seq<Target>, allSuccess: bool)
    requires Progress(rows, targets, |targets|, allSuccess)
    ensures NoneQueued(rows)
    ensures if allSuccess then AllSent(rows) else SomeFailed(rows)
  {
    forall r | r in rows
      ensures rows[r].status == "sent" || rows[r].status == "failed"
      ensures allSuccess ==> rows[r].status == "sent"
    {
      assert Covers(targets, |targets|, r);
    }
    if !allSuccess {
      var k :| 0 <= k < |targets| && rows[targets[k].recipientId].status != "sent";
      assert targets[k].recipientId in rows;
    }
  }

  lemma AddedRowsAt(db: Tables, c: Id, newIds: map<Id, Id>, r: Id)
    requires newIds.Keys !! db.recipients.Keys
    ensures
      var rows := Prepared(db, c, newIds).recipients;
      && (r in db.recipients ==> r in rows && rows[r] == db.recipients[r])
      && (r !in db.recipients && r in rows ==> r in newIds && rows[r] == NewRecipient(c, newIds[r]))
  {
    hide HasRecipient;
  }

  lemma PreparedRows(db: Tables, c: Id, newIds: map<Id, Id>, other: Id)
    requires newIds.Keys !! db.recipients.Keys
    ensures other != c ==> Rows(Prepared(db, c, newIds), other) == Rows(db, other)
    ensures forall r :: r in Rows(Prepared(db, c, newIds), c) && r !in Rows(db, c) ==>
      r in newIds && Rows(Prepared(db, c, newIds), c)[r] == Row(newIds[r], "queued")
    ensures forall r :: r in Rows(db, c) ==>
      r in Rows(Prepared(db, c, newIds), c) && Rows(Prepared(db, c, newIds), c)[r] == Rows(db, c)[r]
  {
    hide Prepared;
    forall r
      ensures
        var rows := Prepared(db, c, newIds).recipients;
        && (r in db.recipients ==> r in rows && rows[r] == db.recipients[r])
        && (r !in db.recipients && r in rows ==> r in newIds && rows[r] == NewRecipient(c, newIds[r]))
    {
      AddedRowsAt(db, c, newIds, r);
    }
  }

  /** What a successful preparation changes. */
  lemma PrepareStep(w: World, newIds: map<Id, Id>)
    requires Step(w, Prepare(newIds)).Some?
    ensures
      var v, job := Step(w, Prepare(newIds)).value, w.worker.job;
      var chosen := Eligible(w.db, job.tenant, job.campaign);
      if v.worker.Listing? then
        && v.db == Prepared(w.db, job.campaign, newIds) && v.db.campaigns == w.db.campaigns
        && v.log == w.log && v.imported == w.imported && v.used == w.used + newIds.Keys
        && v.eligible == w.eligible[job.campaign := chosen]
        && v.worker == Listing(job, w.worker.campaign)
        && (forall r :: r in newIds ==> newIds[r] in chosen) && newIds.Keys !! w.db.recipients.Keys
      else v == w.(worker := Failing(job))
  {
    hide Eligible, HasRecipient;
  }

  lemma PreparedStaysHonest(w: World, newIds: map<Id, Id>, c: Id)
    requires Inv(w) && Meaning(w) && Step(w, Prepare(newIds)).Some? && Step(w, Prepare(newIds)).value.worker.Listing?
    ensures Honest(Step(w, Prepare(newIds)).value, c)
  {
    hide Exec, After;
    hide Sound, Rows, Eligible, Prepared, Mailed, MailedWithin, AllSent, NoneQueued, SomeFailed;
    var job := w.worker.job;
    PrepareStep(w, newIds);
    assert Honest(w, c);
    PreparedRows(w.db, job.campaign, newIds, c);
    hide Step;
    if Native(w, c) {
      if c == job.campaign {
        assert Rows(w.db, c) == map[];
      } else {
        hide KnownStatuses, OnlyEligible;
        SameChoices(w.eligible, job.campaign, Eligible(w.db, job.tenant, job.campaign), Rows(w.db, c), c);
      }
    }
  }

  lemma SameChoices(eligible: map<Id, set<Id>>, c: Id, chosen: set<Id>, rows: map<Id, Row>, other: Id)
    requires other != c && OnlyEligible(rows, other, eligible)
    ensures OnlyEligible(rows, other, eligible[c := chosen])
  {
  }

  lemma PreparedKeepsMeaning(w: World, newIds: map<Id, Id>)
    requires Inv(w) && Meaning(w) && Step(w, Prepare(newIds)).Some? && Step(w, Prepare(newIds)).value.worker.Listing?
    ensures Meaning(Step(w, Prepare(newIds)).value)
  {
    hide Exec, After;
    PrepareStep(w, newIds);
    PreparedKeys(w.db, w.worker.job.campaign, newIds);
    hide Honest, MailEligible, WorkerHonest;
    var v := Step(w, Prepare(newIds)).value;
    forall c ensures Honest(v, c) {
      PreparedStaysHonest(w, newIds, c);
    }
    forall i | 0 <= i < |v.log|
      ensures MailEligible(v, v.log[i])
    {
      assert v.log == w.log && MailEligible(w, w.log[i]);
      MailStaysEligible(w, newIds, i);
    }
    assert WorkerHonest(v) by {
      hide Step, Inv, Sound, Rows, Eligible, Prepared, Meaning;
      ListingIsHonest(v);
    }
    hide Step, Inv, Sound, Rows, Eligible, Prepared;
  }

  lemma ListingIsHonest(w: World)
    requires w.worker.Listing?
    ensures WorkerHonest(w)
  {
  }

  lemma MailStaysEligible(w: World, newIds: map<Id, Id>, i: nat)
    requires Inv(w) && Step(w, Prepare(newIds)).Some? && Step(w, Prepare(newIds)).value.worker.Listing?
    requires i < |w.log| && MailEligible(w, w.log[i])
    ensures MailEligible(Step(w, Prepare(newIds)).value, w.log[i])
  {
    PrepareStep(w, newIds);
    NobodyMailedYet(w, newIds, i);
    hide Step, Inv, Eligible, Prepared;
  }

  lemma NobodyMailedYet(w: World, newIds: map<Id, Id>, i: nat)
    requires Inv(w) && Step(w, Prepare(newIds)).Some? && i < |w.log|
    ensures w.log[i].campaign != w.worker.job.campaign
  {
    hide Exec, Sound, Eligible, FreshRows, MailedWithin, DistinctContacts;
  }

  /** Once a campaign is gone, the cascade has taken its segments too, so no contact is eligible for it. */
  lemma GoneIsIneligible(db: Tables, tenant: Id, campaign: Id)
    requires Sound(db) && campaign !in db.campaigns
    ensures Eligible(db, tenant, campaign) == {} && Missing(db, tenant, campaign) == {}
  {
    assert TargetsExist(db.campaignSegments, db.campaigns, db.segments);
  }

  /** So the worker's preparation is never refused. */
  lemma PreparationSucceeds(w: World, newIds: map<Id, Id>)
    requires Inv(w) && Step(w, Prepare(newIds)).Some?
    ensures Step(w, Prepare(newIds)).value.worker.Listing?
  {
    hide Sound, HasRecipient, Eligible, WorkerInv, Distinct;
    var job := w.worker.job;
    if job.campaign !in w.db.campaigns {
      GoneIsIneligible(w.db, job.tenant, job.campaign);
      assert newIds == map[];
      assert AddedRows(w.db, job.campaign, newIds) == map[];
    }
    hide AddedRows, Prepared;
  }

  lemma PrepareKeepsMeaning(w: World, newIds: map<Id, Id>)
    requires Inv(w) && Meaning(w) && Step(w, Prepare(newIds)).Some?
    ensures Meaning(Step(w, Prepare(newIds)).value)
  {
    hide Inv, Meaning, Step;
    PreparationSucceeds(w, newIds);
    PreparedKeepsMeaning(w, newIds);
  }

  lemma PreparedKeys(db: Tables, c: Id, newIds: map<Id, Id>)
    ensures Prepared(db, c, newIds).recipients.Keys <= db.recipients.Keys + newIds.Keys
  {
  }

  lemma ListKeepsMeaning(w: World, rows: seq<Target>)
    requires Inv(w) && Meaning(w) && Step(w, List(rows)).Some?
    ensures Meaning(Step(w, List(rows)).value)
  {
    hide Exec, After;
    var v := Step(w, List(rows)).value;
    var c := w.worker.job.campaign;
    hide Sound, Mailed, StatusHonest, KnownStatuses;
    assert Honest(w, c);
    forall k | 0 <= k < |rows|
      ensures rows[k].recipientId in Rows(w.db, c) && Rows(w.db, c)[rows[k].recipientId].contact == rows[k].contactId
      ensures c in w.db.campaigns
    {
      assert Listed(w.db, w.worker.job, rows[k]);
    }
    assert TargetsOwned(v, c, rows);
    assert forall d :: Honest(w, d) ==> Honest(v, d);
    hide TargetsOwned, Honest, Listed;
  }

  lemma SendKeepsMeaning(w: World, ok: bool)
    requires Inv(w) && Meaning(w) && Step(w, Send(ok)).Some?
    ensures Meaning(Step(w, Send(ok)).value)
  {
    hide Exec, After;
    var v := Step(w, Send(ok)).value;
    var c := w.worker.job.campaign;
    hide Sound, Rows, Progress, MailedWithin;
    forall d ensures Honest(v, d) {
      assert Honest(w, d);
      if d != c {
        assert Mailed(v.log, d) == Mailed(w.log, d) by {
          assert forall i :: 0 <= i < |w.log| ==> v.log[i] == w.log[i];
        }
      }
    }
    hide Honest;
  }

  lemma MarkedRows(db: Tables, c: Id, r: Id, status: string, error: string, now: Time, other: Id)
    requires r in db.recipients ==> db.recipients[r].campaignId == c
    ensures
      var after := After(db, SetRecipientStatus(r, status, error, now));
      && after == db.(recipients := after.recipients) && after.recipients.Keys == db.recipients.Keys
      && (forall q :: q in db.recipients ==> after.recipients[q].campaignId == db.recipients[q].campaignId)
      && (other != c ==> Rows(after, other) == Rows(db, other))
      && (r in Rows(db, c) ==> Rows(after, c) == Rows(db, c)[r := Row(Rows(db, c)[r].contact, status)])
      && (r !in Rows(db, c) ==> Rows(after, c) == Rows(db, c))
  {
  }

  lemma ProgressAdvances(rows: map<Id, Row>, targets: seq<Target>, n: nat, allSuccess: bool, delivered: bool)
    requires n < |targets| && Progress(rows, targets, n, allSuccess)
    requires forall i, j :: 0 <= i < j < |targets| ==> targets[i].recipientId != targets[j].recipientId
    ensures
      var r := targets[n].recipientId;
      var status := if delivered then "sent" else "failed";
      Progress(rows[r := Row(rows[r].contact, status)], targets, n + 1, allSuccess && delivered)
  {
    var r := targets[n].recipientId;
    var after := rows[r := Row(rows[r].contact, if delivered then "sent" else "failed")];
    forall k | 0 <= k < n
      ensures after[targets[k].recipientId] == rows[targets[k].recipientId]
    {
    }
    assert after[targets[n].recipientId].status == if delivered then "sent" else "failed";
  }

  lemma MarkStep(w: World, error: string, now: Time, d: Id)
    requires Meaning(w) && Step(w, Mark(error, now)).Some?
    ensures
      var v, c := Step(w, Mark(error, now)).value, w.worker.job.campaign;
      var r := w.worker.targets[w.worker.next].recipientId;
      var status := if w.worker.delivered then "sent" else "failed";
      && v == w.(db := v.db, worker := v.worker)
      && v.worker == Sending(w.worker.job, w.worker.campaign, w.worker.targets, w.worker.next + 1,
                             w.worker.allSuccess && w.worker.delivered)
      && v.db == w.db.(recipients := v.db.recipients) && v.db.recipients.Keys == w.db.recipients.Keys
      && (forall q :: q in w.db.recipients ==> v.db.recipients[q].campaignId == w.db.recipients[q].campaignId)
      && (d != c ==> Rows(v.db, d) == Rows(w.db, d))
      && Rows(v.db, c) == (if r in Rows(w.db, c) then Rows(w.db, c)[r := Row(Rows(w.db, c)[r].contact, status)]
                           else Rows(w.db, c))
  {
    hide Exec, After;
    hide Rows, Honest, Progress, After;
    var r := w.worker.targets[w.worker.next].recipientId;
    var status, text := if w.worker.delivered then "sent" else "failed", if w.worker.delivered then "" else error;
    MarkedRows(w.db, w.worker.job.campaign, r, status, text, now, d);
    MarkedRows(w.db, w.worker.job.campaign, r, status, text, now, w.worker.job.campaign);
  }

  lemma MarkedStaysHonest(w: World, error: string, now: Time, d: Id)
    requires Inv(w) && Meaning(w) && Step(w, Mark(error, now)).Some?
    ensures Honest(Step(w, Mark(error, now)).value, d)
  {
    hide Exec, After;
    hide Sound, Rows, MailedWithin, Progress, Mailed, AllSent, NoneQueued, SomeFailed;
    MarkStep(w, error, now, d);
    assert Honest(w, d);
    hide Step;
    if d != w.worker.job.campaign {
      hide KnownStatuses, OnlyEligible;
    }
  }

  lemma TargetsStayOwned(w: World, v: World, c: Id, targets: seq<Target>)
    requires TargetsOwned(w, c, targets)
    requires v.used == w.used && v.imported == w.imported && v.eligible == w.eligible
    requires v.db.recipients.Keys == w.db.recipients.Keys
    requires forall q :: q in w.db.recipients ==> v.db.recipients[q].campaignId == w.db.recipients[q].campaignId
    ensures TargetsOwned(v, c, targets)
  {
  }

  lemma MarkKeepsWorker(w: World, error: string, now: Time)
    requires Inv(w) && Meaning(w) && Step(w, Mark(error, now)).Some?
    ensures WorkerHonest(Step(w, Mark(error, now)).value)
  {
    hide Exec, After, Sound, Rows, Honest, MailedWithin, Mailed, DistinctContacts;
    var v := Step(w, Mark(error, now)).value;
    var Marking(job, campaign, targets, next, allSuccess, delivered) := w.worker;
    assert WorkerHonest(w) && next < |targets|;
    MarkStep(w, error, now, job.campaign);
    hide Step, Inv, Meaning;
    TargetsStayOwned(w, v, job.campaign, targets);
    if Native(w, job.campaign) {
      hide TargetsOwned;
      assert targets[next].recipientId in Rows(w.db, job.campaign);
      ProgressAdvances(Rows(w.db, job.campaign), targets, next, allSuccess, delivered) by {
        TargetsDiffer(w, job.campaign, targets);
      }
    }
    hide Progress, TargetsOwned;
  }

  lemma TargetsDiffer(w: World, c: Id, targets: seq<Target>)
    requires TargetsOwned(w, c, targets)
    ensures forall i, j :: 0 <= i < j < |targets| ==> targets[i].recipientId != targets[j].recipientId
  {
  }

  lemma MarkKeepsMeaning(w: World, error: string, now: Time)
    requires Inv(w) && Meaning(w) && Step(w, Mark(error, now)).Some?
    ensures Meaning(Step(w, Mark(error, now)).value)
  {
    hide Exec, After;
    hide Inv, Honest, WorkerHonest, Rows;
    forall d ensures Honest(Step(w, Mark(error, now)).value, d) {
      MarkedStaysHonest(w, error, now, d);
    }
    MarkKeepsWorker(w, error, now);
    MarkStep(w, error, now, w.worker.job.campaign);
    hide Step;
  }

  lemma LoadKeepsMeaning(w: World)
    requires Inv(w) && Meaning(w) && Step(w, Load).Some?
    ensures Meaning(Step(w, Load).value)
  {
    hide Exec, After, Sound, Rows, Progress, Mailed, MailedWithin, KnownStatuses, OnlyEligible, TargetsOwned, Inv;
    hide AllSent, NoneQueued, SomeFailed;
    var v := Step(w, Load).value;
    assert Honest(w, w.worker.job.campaign);
    assert forall c :: Honest(w, c) ==> Honest(v, c);
    hide Honest;
  }

  lemma QuietKeepsMeaning(w: World, l: Label)
    requires Inv(w) && Meaning(w) && Step(w, l).Some? && (l.Enqueue? || l.Dequeue? || l.Fetch? || l.Crash?)
    ensures Meaning(Step(w, l).value)
  {
    hide Exec, After, Sound, Rows, Progress, Mailed, MailedWithin, KnownStatuses, OnlyEligible, TargetsOwned, Inv;
    hide StatusHonest, Handled;
    var v := Step(w, l).value;
    assert forall c :: Honest(w, c) ==> Honest(v, c);
    if l.Enqueue? && (w.worker.Sending? || w.worker.Marking?) {
      TargetsStayOwned(w, v, w.worker.job.campaign, w.worker.targets);
    }
    hide Honest;
  }

  lemma StepKeepsMeaning(w: World, l: Label)
    requires Inv(w) && Meaning(w) && Step(w, l).Some?
    ensures Meaning(Step(w, l).value)
  {
    if l.Handle? {
      hide Inv, Meaning;
      HandlerKeepsMeaning(w, l.op);
    } else {
      hide Inv, Meaning, Step;
      if SetsStatus(l) {
        StatusKeepsMeaning(w, l);
      } else if l.Prepare? {
        PrepareKeepsMeaning(w, l.newIds);
      } else if l.List? {
        ListKeepsMeaning(w, l.rows);
      } else if l.Send? {
        SendKeepsMeaning(w, l.ok);
      } else if l.Mark? {
        MarkKeepsMeaning(w, l.error, l.now);
      } else if l.Load? {
        LoadKeepsMeaning(w);
      } else {
        QuietKeepsMeaning(w, l);
      }
    }
  }

  lemma InitMeaning(w: World)
    requires Init(w)
    ensures Meaning(w)
  {
    forall c ensures Honest(w, c) {
      hide Sound;
      if Native(w, c) {
        assert FreshDraft(w.db, c);
        assert Rows(w.db, c) == map[];
      }
    }
    hide Honest, Sound;
  }

  lemma {:induction false} RunKeepsMeaning(w: World, ls: seq<Label>)
    requires Init(w) && Run(w, ls).Some?
    ensures Inv(Run(w, ls).value) && Meaning(Run(w, ls).value)
  {
    RunKeepsInv(w, ls);
    hide Inv, Step, Init, Meaning;
    if ls == [] {
      InitMeaning(w);
    } else {
      var n := |ls| - 1;
      RunKeepsMeaning(w, ls[..n]);
      StepKeepsMeaning(Run(w, ls[..n]).value, ls[n]);
    }
  }

  /**
   * In every reachable state, of every campaign no import touched: a draft has no rows and no mail; "sent" means every
   * row is sent; "failed" means no row is queued, and a row failed unless nothing was attempted.
   */
  lemma StatusesAreHonest(w: World, ls: seq<Label>, c: Id)
    requires Init(w) && Run(w, ls).Some?
    ensures
      var v := Run(w, ls).value;
      Native(v, c) ==> StatusHonest(v.db.campaigns[c].status, Rows(v.db, c), Mailed(v.log, c))
  {
    RunKeepsMeaning(w, ls);
    assert Honest(Run(w, ls).value, c);
  }

  // --- Who is mailed, told by the steps of the run ---

  /** Step n prepared the campaign's recipients, and the contact was then a subscribed contact of its segments. */
  ghost predicate PreparedAt(w: World, ls: seq<Label>, n: nat, campaign: Id, contact: Id) {
    && n < |ls| && ls[n].Prepare? && Run(w, ls[..n]).Some?
    && var v := Run(w, ls[..n]).value;
       && v.worker.Preparing? && v.worker.job.campaign == campaign
       && contact in v.db.contacts && !v.db.contacts[contact].unsubscribed
       && v.db.contacts[contact].tenantId == v.worker.job.tenant
       && exists g :: (contact, g) in v.db.contactSegments && (campaign, g) in v.db.campaignSegments
  }

  lemma StepGrows(w: World, l: Label)
    requires Step(w, l).Some?
    ensures
      var v := Step(w, l).value;
      && |w.log| <= |v.log| <= |w.log| + 1 && v.log[..|w.log|] == w.log && w.imported <= v.imported
      && (|v.log| > |w.log| ==> v.eligible == w.eligible && v.imported == w.imported)
      && (forall d, c :: Chosen(v.eligible, d, c) && !Chosen(w.eligible, d, c) ==>
            && l.Prepare? && w.worker.Preparing? && w.worker.job.campaign == d
            && c in Eligible(w.db, w.worker.job.tenant, d))
  {
    hide Exec, After, Eligible, FreshRows, Lists, InContext;
  }

  lemma PreparedLater(w: World, ls: seq<Label>, k: nat, n: nat, campaign: Id, contact: Id)
    requires k <= |ls| && PreparedAt(w, ls[..k], n, campaign, contact)
    ensures PreparedAt(w, ls, n, campaign, contact)
  {
    assert ls[..k][..n] == ls[..n];
  }

  /** Who is recorded as chosen was eligible at some preparation, and no mail was lost since. */
  lemma {:induction false} ChosenWasEligible(w: World, ls: seq<Label>, campaign: Id, contact: Id) returns (n: nat)
    requires w.eligible == map[] && Run(w, ls).Some? && Chosen(Run(w, ls).value.eligible, campaign, contact)
    ensures PreparedAt(w, ls, n, campaign, contact)
    ensures |Run(w, ls[..n]).value.log| <= |Run(w, ls).value.log|
  {
    hide Step, Eligible;
    assert ls != [];
    var k := |ls| - 1;
    var v := Run(w, ls[..k]).value;
    StepGrows(v, ls[k]);
    if Chosen(v.eligible, campaign, contact) {
      n := ChosenWasEligible(w, ls[..k], campaign, contact);
      PreparedLater(w, ls, k, n, campaign, contact);
      assert ls[..k][..n] == ls[..n];
    } else {
      n := k;
      EligibleIs(v.db, v.worker.job.tenant, campaign);
    }
  }

  lemma RecordedAsChosen(w: World, ls: seq<Label>, i: nat)
    requires Init(w) && Run(w, ls).Some? && i < |Run(w, ls).value.log|
    ensures
      var v := Run(w, ls).value;
      v.log[i].campaign !in v.imported ==> Chosen(v.eligible, v.log[i].campaign, v.log[i].contact)
  {
    RunKeepsMeaning(w, ls);
    assert MailEligible(Run(w, ls).value, Run(w, ls).value.log[i]);
  }

  /**
   * Whoever was mailed for a campaign no import touched was, at a step before that mail which prepared the campaign's
   * recipients, a subscribed contact in one of its segments.
   */
  lemma {:induction false} OnlyEligibleAreMailed(w: World, ls: seq<Label>, i: nat) returns (n: nat)
    requires Init(w) && Run(w, ls).Some? && i < |Run(w, ls).value.log|
    requires Run(w, ls).value.log[i].campaign !in Run(w, ls).value.imported
    ensures
      var mail := Run(w, ls).value.log[i];
      PreparedAt(w, ls, n, mail.campaign, mail.contact) && |Run(w, ls[..n]).value.log| <= i
  {
    assert w.log == [] && w.eligible == map[];
    assert ls != [];
    var k := |ls| - 1;
    var u, v := Run(w, ls[..k]).value, Run(w, ls).value;
    hide Step, Init, Chosen, PreparedAt;
    assert Step(u, ls[k]) == Some(v);
    hide Run;
    StepGrows(u, ls[k]);
    if i < |u.log| {
      assert v.log[..|u.log|][i] == v.log[i];
      n := OnlyEligibleAreMailed(w, ls[..k], i);
    } else {
      RecordedAsChosen(w, ls, i);
      n := ChosenWasEligible(w, ls[..k], v.log[i].campaign, v.log[i].contact);
    }
    StillPrepared(w, ls, k, n, v.log[i].campaign, v.log[i].contact);
  }

  lemma StillPrepared(w: World, ls: seq<Label>, k: nat, n: nat, campaign: Id, contact: Id)
    requires k <= |ls| && PreparedAt(w, ls[..k], n, campaign, contact)
    ensures n < k && ls[..k][..n] == ls[..n] && PreparedAt(w, ls, n, campaign, contact)
  {
    PreparedLater(w, ls, k, n, campaign, contact);
  }

  /** The rows and the mails agree with a final status. */
  ghost predicate Settled(w: World, c: Id) {
    Native(w, c) ==>
      var status, rows := w.db.campaigns[c].status, Rows(w.db, c);
      && NoneQueued(rows)
      && ((status == "sent" && AllSent(rows)) || (status == "failed" && (SomeFailed(rows) || !Mailed(w.log, c))))
  }

  lemma DoneSettles(w: World, l: Label)
    requires Inv(w) && Meaning(w) && SetsStatus(l) && !l.Claim? && Step(w, l).Some?
    ensures Settled(Step(w, l).value, w.worker.job.campaign)
  {
    var v, c := Step(w, l).value, w.worker.job.campaign;
    hide Meaning, Inv, Sound, Rows, Mailed, AllSent, NoneQueued, SomeFailed;
    StatusStep(w, l);
    StatusStaysHonest(w, l, c);
    hide Step;
    SentIsNotQueued(Rows(v.db, c));
  }

  /** Once the worker is done with a campaign no import touched, without a crash, none of its rows is left queued. */
  lemma DoneLeavesNothingQueued(w: World, ls: seq<Label>, l: Label)
    requires Init(w) && Run(w, ls).Some? && !l.Claim? && SetsStatus(l) && Step(Run(w, ls).value, l).Some?
    ensures Settled(Step(Run(w, ls).value, l).value, Run(w, ls).value.worker.job.campaign)
  {
    RunKeepsMeaning(w, ls);
    hide Step, Inv, Meaning, Settled;
    DoneSettles(Run(w, ls).value, l);
  }
}

/** The times and errors on campaigns and their rows, in every reachable state: when mail was sent and first opened. */
module CampaignTimes {
  import opened Wrappers
  import opened Schema
  import opened StoreOps
  import opened StoreInvariants
  import opened StoreFrames
  import opened CampaignMachine
  import opened CampaignMeaning

  /** A row has a sending time exactly if it is sent, and an error only if it failed. */
  predicate RowTimed(r: Recipient) {
    (r.status == "sent" <==> r.sentAt.Some?) && (r.errorMessage != "" ==> r.status == "failed")
  }

  /** A campaign has a time exactly if it is over. */
  predicate CampaignTimed(c: Campaign) {
    c.sentAt.Some? <==> c.status == "sent" || c.status == "failed"
  }

  /** Of everything no import touched. */
  ghost predicate Timed(w: World) {
    && (forall c :: c in w.db.campaigns && c !in w.imported ==> CampaignTimed(w.db.campaigns[c]))
    && (forall r :: r in w.db.recipients && w.db.recipients[r].campaignId !in w.imported ==>
          RowTimed(w.db.recipients[r]))
  }

  // --- Handlers ---

  lemma HandlerKeepsRowTimed(w: World, op: Op, r: Id)
    requires Inv(w) && Timed(w) && Handled(w, op).Some?
    requires
      var v := Handled(w, op).value;
      r in v.db.recipients && v.db.recipients[r].campaignId !in v.imported
    ensures RowTimed(Handled(w, op).value.db.recipients[r])
  {
    hide After, InContext;
    assert Sound(w.db);
    hide Inv, Sound;
    if op.RecordOpen? {
      OpeningIs(w.db, op.id, op.now);
    } else if op.CreateRecipient? {
      CreatedRecipientIs(w.db, op, r);
    } else {
      RowsExactly(w.db, op, r);
    }
  }

  lemma HandlerKeepsTimed(w: World, op: Op)
    requires Inv(w) && Timed(w) && Handled(w, op).Some?
    ensures Timed(Handled(w, op).value)
  {
    hide After, InContext, RowTimed;
    assert Sound(w.db) && w.db.campaigns.Keys <= w.used;
    hide Sound;
    var v := Handled(w, op).value;
    forall c | c in v.db.campaigns && c !in v.imported
      ensures CampaignTimed(v.db.campaigns[c])
    {
      StatusFramed(w.db, op, c);
    }
    forall r | r in v.db.recipients && v.db.recipients[r].campaignId !in v.imported
      ensures RowTimed(v.db.recipients[r])
    {
      HandlerKeepsRowTimed(w, op, r);
    }
  }

  // --- The worker ---

  lemma StatusWrites(db: Tables, tid: Id, id: Id, status: string, now: Time)
    ensures
      After(db, SetCampaignStatus(tid, id, status, now)) ==
      if id in db.campaigns && db.campaigns[id].tenantId == tid then
        db.(campaigns := db.campaigns[id := db.campaigns[id].(
          status := status,
          sentAt := if status == "sent" || status == "failed" then Some(now) else db.campaigns[id].sentAt)])
      else db
  {
    hide ExecTenancy, ExecUser, ExecToken, ExecContact, ExecSegment, ExecRecipient;
  }

  lemma StatusIs(db: Tables, tid: Id, id: Id, status: string, now: Time)
    ensures
      var after := After(db, SetCampaignStatus(tid, id, status, now));
      && after == db.(campaigns := after.campaigns) && after.campaigns.Keys == db.campaigns.Keys
      && (forall c :: c in db.campaigns && c != id ==> after.campaigns[c] == db.campaigns[c])
      && (id in db.campaigns && db.campaigns[id].tenantId == tid ==>
            after.campaigns[id] == db.campaigns[id].(
              status := status,
              sentAt := if status == "sent" || status == "failed" then Some(now) else db.campaigns[id].sentAt))
  {
    StatusWrites(db, tid, id, status, now);
    hide After;
  }

  lemma ClaimKeepsTimed(w: World, now: Time)
    requires Inv(w) && Timed(w) && Step(w, Claim(now)).Some?
    ensures Timed(Step(w, Claim(now)).value)
  {
    var job := w.worker.job;
    hide Exec, After, RowTimed, Sound, MailedWithin;
    assert Holds(w.db, job, "draft");
    hide Inv;
    StatusIs(w.db, job.tenant, job.campaign, "sending", now);
  }

  lemma EndKeepsTimed(w: World, l: Label)
    requires Inv(w) && Timed(w) && (l.Finish? || l.Fail?) && Step(w, l).Some?
    ensures Timed(Step(w, l).value)
  {
    var job := w.worker.job;
    hide Exec, After, RowTimed, Sound, MailedWithin;
    assert Holds(w.db, job, "sending");
    hide Inv;
    StatusIs(w.db, job.tenant, job.campaign, NewStatus(w, l), l.now);
  }

  lemma MarkingIs(db: Tables, id: Id, delivered: bool, error: string, now: Time)
    ensures
      var after := After(db, SetRecipientStatus(id, if delivered then "sent" else "failed",
                                                if delivered then "" else error, now));
      && after == db.(recipients := after.recipients) && after.recipients.Keys == db.recipients.Keys
      && (forall r :: r in db.recipients && r != id ==> after.recipients[r] == db.recipients[r])
      && (id in db.recipients ==>
            after.recipients[id] == db.recipients[id].(
              status := if delivered then "sent" else "failed", errorMessage := if delivered then "" else error,
              sentAt := if delivered then Some(now) else None))
  {
    hide ExecTenancy, ExecUser, ExecToken, ExecContact, ExecSegment, ExecCampaign;
  }

  lemma MarkKeepsTimed(w: World, error: string, now: Time)
    requires Timed(w) && Step(w, Mark(error, now)).Some?
    ensures Timed(Step(w, Mark(error, now)).value)
  {
    hide Exec, After;
    MarkingIs(w.db, w.worker.targets[w.worker.next].recipientId, w.worker.delivered, error, now);
    hide CampaignTimed;
  }

  lemma PrepareKeepsTimed(w: World, newIds: map<Id, Id>)
    requires Timed(w) && Step(w, Prepare(newIds)).Some?
    ensures Timed(Step(w, Prepare(newIds)).value)
  {
    var v := Step(w, Prepare(newIds)).value;
    PrepareStep(w, newIds);
    if v.worker.Listing? {
      forall r | r in v.db.recipients && r !in w.db.recipients
        ensures RowTimed(v.db.recipients[r])
      {
        AddedRowsAt(w.db, w.worker.job.campaign, newIds, r);
      }
      forall r | r in w.db.recipients
        ensures r in v.db.recipients && v.db.recipients[r] == w.db.recipients[r]
      {
        AddedRowsAt(w.db, w.worker.job.campaign, newIds, r);
      }
    }
    hide Step, Prepared, Eligible, RowTimed, CampaignTimed;
  }

  lemma StepKeepsTimed(w: World, l: Label)
    requires Inv(w) && Timed(w) && Step(w, l).Some?
    ensures Timed(Step(w, l).value)
  {
    if l.Handle? {
      hide Inv, Timed;
      HandlerKeepsTimed(w, l.op);
    } else if l.Claim? {
      hide Inv, Timed, Step;
      ClaimKeepsTimed(w, l.now);
    } else if l.Finish? || l.Fail? {
      hide Inv, Timed, Step;
      EndKeepsTimed(w, l);
    } else if l.Mark? {
      hide Inv, Timed, Step;
      MarkKeepsTimed(w, l.error, l.now);
    } else if l.Prepare? {
      hide Inv, Timed, Step;
      PrepareKeepsTimed(w, l.newIds);
    } else {
      hide Inv, Exec, After, Lists, RowTimed, CampaignTimed;
    }
  }

  lemma {:induction false} RunKeepsTimed(w: World, ls: seq<Label>)
    requires Init(w) && Run(w, ls).Some?
    ensures Timed(Run(w, ls).value)
  {
    if ls == [] {
      StartsTimed(w);
    } else {
      hide Init, Step, Timed, Inv;
      var n := |ls| - 1;
      RunKeepsTimed(w, ls[..n]);
      RunKeepsInv(w, ls[..n]);
      StepKeepsTimed(Run(w, ls[..n]).value, ls[n]);
    }
  }

  lemma StartsTimed(w: World)
    requires Init(w)
    ensures Timed(w)
  {
    forall c | c in w.db.campaigns && c !in w.imported
      ensures FreshDraft(w.db, c)
    {
    }
    assert RecipientsExist(w.db.recipients, w.db.campaigns, w.db.contacts);
    hide Sound;
  }

  /**
   * In every reachable state, of campaigns no import touched: a campaign has a time exactly if it is sent or failed; a
   * row has a sending time exactly if it is sent, and an error message only if it failed.
   */
  lemma TimesAreHonest(w: World, ls: seq<Label>)
    requires Init(w) && Run(w, ls).Some?
    ensures
      var db, imported := Run(w, ls).value.db, Run(w, ls).value.imported;
      && (forall c :: c in db.campaigns && c !in imported ==>
            (db.campaigns[c].sentAt.Some? <==> db.campaigns[c].status == "sent" || db.campaigns[c].status == "failed"))
      && (forall r :: r in db.recipients && db.recipients[r].campaignId !in imported ==>
            && (db.recipients[r].sentAt.Some? <==> db.recipients[r].status == "sent")
            && (db.recipients[r].errorMessage != "" ==> db.recipients[r].status == "failed"))
  {
    hide Init, Step, Run;
    RunKeepsTimed(w, ls);
  }

  // --- Openings ---

  /** A row that was opened keeps that time; one opened by this step was there unopened, and the step says when. */
  lemma StepOpens(w: World, l: Label, r: Id)
    requires Inv(w) && Step(w, l).Some? && r in Step(w, l).value.db.recipients
    requires Step(w, l).value.db.recipients[r].campaignId !in Step(w, l).value.imported
    ensures
      var at := Step(w, l).value.db.recipients[r].openedAt;
      && (r in w.db.recipients && w.db.recipients[r].openedAt.Some? ==> at == w.db.recipients[r].openedAt)
      && (at.Some? && (r in w.db.recipients ==> w.db.recipients[r].openedAt.None?) ==>
            r in w.db.recipients && l == Handle(RecordOpen(r, at.value)))
      && (l.Handle? && l.op.RecordOpen? && l.op.id == r ==> at.Some?)
      && (r in w.db.recipients ==> w.db.recipients[r].campaignId == Step(w, l).value.db.recipients[r].campaignId)
  {
    if l.Handle? {
      hide Inv;
      HandlerOpens(w, l.op, r);
    } else if l.Mark? {
      hide Exec, After, Inv;
      MarkingIs(w.db, w.worker.targets[w.worker.next].recipientId, w.worker.delivered, l.error, l.now);
    } else {
      hide Step;
      WorkerOpensNothing(w, l, r);
    }
  }

  lemma HandlerOpens(w: World, op: Op, r: Id)
    requires Inv(w) && Handled(w, op).Some? && r in Handled(w, op).value.db.recipients
    requires Handled(w, op).value.db.recipients[r].campaignId !in Handled(w, op).value.imported
    ensures
      var row := Handled(w, op).value.db.recipients[r];
      && r in w.db.recipients
      && row == if op == RecordOpen(r, if op.RecordOpen? then op.now else 0) && w.db.recipients[r].openedAt.None?
                then w.db.recipients[r].(openedAt := Some(op.now)) else w.db.recipients[r]
  {
    hide After, InContext;
    assert Sound(w.db);
    hide Inv, Sound;
    if op.RecordOpen? {
      OpeningIs(w.db, op.id, op.now);
    } else if op.CreateRecipient? {
      CreatedRecipientIs(w.db, op, r);
    } else {
      RowsExactly(w.db, op, r);
    }
  }

  /** The row is as before, or new and unopened. */
  predicate Unopened(was: Tables, after: Tables, r: Id) {
    r in after.recipients ==>
      if r in was.recipients then after.recipients[r] == was.recipients[r] else after.recipients[r].openedAt == None
  }

  lemma PreparationOpensNothing(w: World, newIds: map<Id, Id>, r: Id)
    requires Step(w, Prepare(newIds)).Some?
    ensures Unopened(w.db, Step(w, Prepare(newIds)).value.db, r)
  {
    PrepareStep(w, newIds);
    if Step(w, Prepare(newIds)).value.worker.Listing? {
      AddedRowsAt(w.db, w.worker.job.campaign, newIds, r);
    }
    hide Step, Prepared, Eligible;
  }

  lemma StatusOpensNothing(w: World, l: Label, r: Id)
    requires Inv(w) && SetsStatus(l) && Step(w, l).Some?
    ensures Unopened(w.db, Step(w, l).value.db, r)
  {
    StatusStep(w, l);
    hide Step, Inv, Rows;
  }

  lemma WorkerOpensNothing(w: World, l: Label, r: Id)
    requires Inv(w) && Step(w, l).Some? && !l.Handle? && !l.Mark?
    ensures Unopened(w.db, Step(w, l).value.db, r)
  {
    hide Inv;
    if l.Prepare? {
      hide Step, Unopened;
      PreparationOpensNothing(w, l.newIds, r);
    } else if SetsStatus(l) {
      hide Step, Unopened;
      StatusOpensNothing(w, l, r);
    } else {
      hide Exec, After, Lists;
    }
  }

  ghost predicate OpenedBy(w: World, ls: seq<Label>, m: nat, r: Id, t: Time) {
    && m < |ls| && ls[m] == Handle(RecordOpen(r, t)) && Run(w, ls[..m]).Some?
    && r in Run(w, ls[..m]).value.db.recipients && Run(w, ls[..m]).value.db.recipients[r].openedAt.None?
  }

  /**
   * In every reachable state, the opening time of a row of a campaign no import touched is that of the first request
   * for its tracking pixel: at that step the row was there unopened.
   */
  lemma {:induction false} OpenedAtFirst(w: World, ls: seq<Label>, r: Id) returns (m: nat)
    requires Init(w) && Run(w, ls).Some? && r in Run(w, ls).value.db.recipients
    requires Run(w, ls).value.db.recipients[r].campaignId !in Run(w, ls).value.imported
    requires Run(w, ls).value.db.recipients[r].openedAt.Some?
    ensures OpenedBy(w, ls, m, r, Run(w, ls).value.db.recipients[r].openedAt.value)
  {
    StartsWithoutRows(w);
    assert ls != [];
    var n := |ls| - 1;
    var u, v := Run(w, ls[..n]).value, Run(w, ls).value;
    assert Step(u, ls[n]) == Some(v);
    hide Step, Init, Run;
    RunKeepsInv(w, ls[..n]);
    hide Inv;
    StepOpens(u, ls[n], r);
    StepGrows(u, ls[n]);
    if r in u.db.recipients && u.db.recipients[r].openedAt.Some? {
      m := OpenedAtFirst(w, ls[..n], r);
      assert ls[..n][..m] == ls[..m];
    } else {
      m := n;
    }
  }

  lemma StartsWithoutRows(w: World)
    requires Init(w)
    ensures forall r :: r in w.db.recipients ==> w.db.recipients[r].campaignId in w.imported
  {
    assert RecipientsExist(w.db.recipients, w.db.campaigns, w.db.contacts);
    hide Sound;
    forall c | c in w.db.campaigns && c !in w.imported
      ensures FreshDraft(w.db, c)
    {
    }
  }
}

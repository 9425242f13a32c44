/** Unsubscribing is for good: no operation undoes it, and no campaign prepared afterwards mails the contact. */
module Unsubscription {
  import opened Wrappers
  import opened Schema
  import opened StoreOps
  import opened StoreInvariants
  import opened TenantStore
  import opened PeopleFrames
  import opened CampaignMachine
  import opened CampaignMeaning

  predicate Unsubscribed(db: Tables, c: Id) {
    c in db.contacts ==> db.contacts[c].unsubscribed
  }

  lemma UnsubscribeTakes(db: Tables, tid: Id, token: Id, c: Id)
    requires c in ContactsOf(db, tid) && db.contacts[c].unsubscribeToken == token
    ensures Unsubscribed(After(db, Unsubscribe(tid, token)), c)
  {
    hide ExecTenancy, ExecUser, ExecToken, ExecSegment, ExecCampaign, ExecRecipient;
  }

  lemma EditKeepsUnsubscribed(db: Tables, op: Op, c: Id)
    requires op.EditContact? && Unsubscribed(db, c)
    ensures Unsubscribed(After(db, op), c)
  {
    hide ExecTenancy, ExecUser, ExecToken, ExecSegment, ExecCampaign, ExecRecipient, ContactClashes;
  }

  lemma UnsubscribeKeepsUnsubscribed(db: Tables, op: Op, c: Id)
    requires op.Unsubscribe? && Unsubscribed(db, c)
    ensures Unsubscribed(After(db, op), c)
  {
    hide ExecTenancy, ExecUser, ExecToken, ExecSegment, ExecCampaign, ExecRecipient;
  }

  lemma DeleteKeepsUnsubscribed(db: Tables, op: Op, c: Id)
    requires op.DeleteContact? && Unsubscribed(db, c)
    ensures Unsubscribed(After(db, op), c)
  {
    hide ExecTenancy, ExecUser, ExecToken, ExecSegment, ExecCampaign, ExecRecipient, ContactsOf;
  }

  lemma CreateKeepsUnsubscribed(db: Tables, op: Op, c: Id)
    requires op.CreateContact? && op.id != c && Unsubscribed(db, c)
    ensures Unsubscribed(After(db, op), c)
  {
    hide ExecTenancy, ExecUser, ExecToken, ExecSegment, ExecCampaign, ExecRecipient, ContactClashes;
  }

  lemma ActivateKeepsUnsubscribed(db: Tables, op: Op, c: Id)
    requires op.Activate? && Unsubscribed(db, c)
    ensures Unsubscribed(After(db, op), c)
  {
    hide ExecTenancy, ExecToken, ExecContact, ExecSegment, ExecCampaign, ExecRecipient, EmailTaken;
  }

  lemma TenantKeepsUnsubscribed(db: Tables, tid: Id, c: Id)
    requires Sound(db) && Unsubscribed(db, c)
    ensures Unsubscribed(After(db, DeleteTenant(tid)), c)
  {
    hide Sound, Detachable, ExecTenancy, ExecUser, ExecToken, ExecContact, ExecSegment, ExecCampaign, ExecRecipient;
    LocalTenantsGo(db, tid);
  }

  /** No operation subscribes a contact again; only a new contact starts subscribed. */
  lemma UnsubscribedStays(db: Tables, op: Op, c: Id)
    requires Sound(db) && Unsubscribed(db, c) && !(op.CreateContact? && op.id == c)
    ensures Unsubscribed(After(db, op), c)
  {
    hide Sound, After;
    if op.DeleteTenant? {
      TenantKeepsUnsubscribed(db, op.id, c);
    } else if op.Activate? {
      ActivateKeepsUnsubscribed(db, op, c);
    } else if op.EditContact? {
      EditKeepsUnsubscribed(db, op, c);
    } else if op.Unsubscribe? {
      UnsubscribeKeepsUnsubscribed(db, op, c);
    } else if op.DeleteContact? {
      DeleteKeepsUnsubscribed(db, op, c);
    } else if op.CreateContact? {
      CreateKeepsUnsubscribed(db, op, c);
    } else if TenancyOp(op) {
      TenancyPeople(db, op);
    } else if UserOp(op) {
      UserOpsKeepContacts(db, op);
    } else if TokenOp(op) {
      TokenPeople(db, op);
    } else if SegmentOp(op) {
      SegmentPeople(db, op);
    } else if CampaignOp(op) {
      CampaignPeople(db, op);
    } else {
      RecipientPeople(db, op);
    }
  }

  /** The contact is not created anew under its old id. */
  predicate NotRecreated(l: Label, c: Id) {
    !(l.Handle? && l.op.CreateContact? && l.op.id == c)
  }

  lemma IneligibleOnceUnsubscribed(db: Tables, tid: Id, d: Id, c: Id)
    requires Unsubscribed(db, c)
    ensures c !in Eligible(db, tid, d)
  {
    hide Targeted;
  }

  lemma StepKeepsUnsubscribed(w: World, l: Label, c: Id)
    requires Inv(w) && Unsubscribed(w.db, c) && NotRecreated(l, c) && Step(w, l).Some?
    ensures Unsubscribed(Step(w, l).value.db, c)
    ensures forall d :: Chosen(Step(w, l).value.eligible, d, c) ==> Chosen(w.eligible, d, c)
  {
    hide Unsubscribed, Inv, After, Exec, InContext, Eligible, FreshRows, Lists;
    assert Sound(w.db) by { InvIsSound(w); }
    hide Sound;
    if l.Handle? {
      UnsubscribedStays(w.db, l.op, c);
    } else if l.Prepare? {
      var job := w.worker.job;
      IneligibleOnceUnsubscribed(w.db, job.tenant, job.campaign, c);
      UnsubscribedStays(w.db, PrepareRecipients(job.tenant, job.campaign, l.newIds), c);
      AfterIs(w.db, PrepareRecipients(job.tenant, job.campaign, l.newIds));
    } else if l.Mark? && w.worker.Marking? && w.worker.next < |w.worker.targets| {
      UnsubscribedStays(w.db, SetRecipientStatus(w.worker.targets[w.worker.next].recipientId,
                                                 if w.worker.delivered then "sent" else "failed",
                                                 if w.worker.delivered then "" else l.error, l.now), c);
    } else if SetsStatus(l) {
      var status := if l.Claim? then "sending" else if l.Finish? && w.worker.allSuccess then "sent" else "failed";
      UnsubscribedStays(w.db, SetCampaignStatus(w.worker.job.tenant, w.worker.job.campaign, status, l.now), c);
    }
  }

  lemma InvIsSound(w: World)
    requires Inv(w)
    ensures Sound(w.db)
  {
  }

  lemma AfterIs(db: Tables, op: Op)
    ensures Exec(db, op).Some? ==> After(db, op) == Exec(db, op).value
  {
    hide Exec;
  }

  lemma {:induction false} RunKeepsUnsubscribed(w: World, ls: seq<Label>, c: Id)
    requires Inv(w) && Unsubscribed(w.db, c) && Run(w, ls).Some?
    requires forall i :: 0 <= i < |ls| ==> NotRecreated(ls[i], c)
    ensures Inv(Run(w, ls).value) && Unsubscribed(Run(w, ls).value.db, c)
    ensures forall d :: Chosen(Run(w, ls).value.eligible, d, c) ==> Chosen(w.eligible, d, c)
  {
    hide Inv, Step, Unsubscribed, Chosen, NotRecreated;
    if ls != [] {
      var n := |ls| - 1;
      RunKeepsUnsubscribed(w, ls[..n], c);
      StepKeepsInv(Run(w, ls[..n]).value, ls[n]);
      StepKeepsUnsubscribed(Run(w, ls[..n]).value, ls[n], c);
    }
  }

  lemma {:induction false} RunOn(w: World, ls: seq<Label>, more: seq<Label>)
    requires Run(w, ls).Some?
    ensures Run(w, ls + more) == Run(Run(w, ls).value, more)
  {
    hide Step;
    if more == [] {
      assert ls + more == ls;
    } else {
      var n := |more| - 1;
      RunOn(w, ls, more[..n]);
      assert (ls + more)[..|ls| + n] == ls + more[..n];
    }
  }

  /**
   * From a reachable state in which the contact is unsubscribed, whatever happens next: a campaign without imported
   * recipients mails it only if a step before prepared it, when the contact was still subscribed.
   */
  lemma UnsubscribedIsNotMailed(w: World, ls: seq<Label>, more: seq<Label>, c: Id, i: nat)
    requires Init(w) && Run(w, ls).Some? && Unsubscribed(Run(w, ls).value.db, c)
    requires Run(Run(w, ls).value, more).Some? && forall k :: 0 <= k < |more| ==> NotRecreated(more[k], c)
    requires i < |Run(Run(w, ls).value, more).value.log| && Run(Run(w, ls).value, more).value.log[i].contact == c
    ensures
      var later := Run(Run(w, ls).value, more).value;
      later.log[i].campaign !in later.imported ==> exists n :: PreparedAt(w, ls, n, later.log[i].campaign, c)
  {
    RunKeepsInv(w, ls);
    RunOn(w, ls, more);
    RecordedAsChosen(w, ls + more, i);
    var later := Run(Run(w, ls).value, more).value;
    assert w.eligible == map[];
    hide Inv, Step, Unsubscribed, Init;
    if later.log[i].campaign !in later.imported {
      RunKeepsUnsubscribed(Run(w, ls).value, more, c);
      var n := ChosenWasEligible(w, ls, later.log[i].campaign, c);
    }
  }

  /**
   * After a contact's unsubscribe link is followed, only campaigns prepared before that request still mail it, whatever
   * requests, worker steps and crashes follow.
   */
  lemma UnsubscribingStopsMail(w: World, ls: seq<Label>, tid: Id, token: Id, more: seq<Label>, c: Id, i: nat)
    requires Init(w) && Run(w, ls).Some? && c in ContactsOf(Run(w, ls).value.db, tid)
    requires Run(w, ls).value.db.contacts[c].unsubscribeToken == token
    requires Run(w, ls + [Handle(Unsubscribe(tid, token))] + more).Some?
    requires forall k :: 0 <= k < |more| ==> NotRecreated(more[k], c)
    requires i < |Run(w, ls + [Handle(Unsubscribe(tid, token))] + more).value.log|
    ensures
      var later := Run(w, ls + [Handle(Unsubscribe(tid, token))] + more).value;
      later.log[i].contact == c && later.log[i].campaign !in later.imported ==>
      exists n :: PreparedAt(w, ls, n, later.log[i].campaign, c)
  {
    var now := ls + [Handle(Unsubscribe(tid, token))];
    var later := Run(w, now + more).value;
    hide Inv, Meaning, Init, Step;
    Requested(w, ls, tid, token, c);
    SplitsRun(w, now, more);
    hide Run, Unsubscribed, NotRecreated, PreparedAt;
    if later.log[i].contact == c && later.log[i].campaign !in later.imported {
      UnsubscribedIsNotMailed(w, now, more, c, i);
      var n :| PreparedAt(w, now, n, later.log[i].campaign, c);
      PreparedEarlier(w, ls, Handle(Unsubscribe(tid, token)), n, later.log[i].campaign, c);
    }
  }

  lemma PreparedEarlier(w: World, ls: seq<Label>, l: Label, n: nat, campaign: Id, contact: Id)
    requires PreparedAt(w, ls + [l], n, campaign, contact) && !l.Prepare?
    ensures PreparedAt(w, ls, n, campaign, contact)
  {
    assert n < |ls| && (ls + [l])[..n] == ls[..n];
  }

  lemma Requested(w: World, ls: seq<Label>, tid: Id, token: Id, c: Id)
    requires Run(w, ls).Some? && c in ContactsOf(Run(w, ls).value.db, tid)
    requires Run(w, ls).value.db.contacts[c].unsubscribeToken == token
    ensures
      var now := ls + [Handle(Unsubscribe(tid, token))];
      Run(w, now).Some? ==> Unsubscribed(Run(w, now).value.db, c)
  {
    var now := ls + [Handle(Unsubscribe(tid, token))];
    assert now[..|ls|] == ls;
    hide Unsubscribed, After, InContext;
    UnsubscribeTakes(Run(w, ls).value.db, tid, token, c);
  }

  lemma {:induction false} SplitsRun(w: World, ls: seq<Label>, more: seq<Label>)
    requires Run(w, ls + more).Some?
    ensures Run(w, ls).Some? && Run(Run(w, ls).value, more) == Run(w, ls + more)
  {
    hide Step;
    if more == [] {
      assert ls + more == ls;
    } else {
      var n := |more| - 1;
      assert (ls + more)[..|ls| + n] == ls + more[..n];
      SplitsRun(w, ls, more[..n]);
    }
  }
}

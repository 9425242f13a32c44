/**
 * The worker itself: the queue and processCampaign of backend/marketing/sender.go, with other requests served between
 * any two of its statements. Each statement is shown to be a step of the campaign machine.
 */
module CampaignSender {
  import opened Wrappers
  import opened Schema
  import opened StoreOps
  import opened CampaignMachine
  import opened CampaignMeaning
  import opened MarketingStore

  ghost predicate Reaches(w: World, v: World) {
    exists ls :: Run(w, ls) == Some(v)
  }

  lemma ReachesStep(w: World, v: World, l: Label, u: World)
    requires Reaches(w, v) && Step(v, l) == Some(u)
    ensures Reaches(w, u)
  {
    hide Step;
    var ls :| Run(w, ls) == Some(v);
    assert (ls + [l])[..|ls|] == ls;
    assert Run(w, ls + [l]) == Some(u);
  }

  lemma SupplyLeft(uuid: nat -> Id, start: nat, next: nat, used: set<Id>, newIds: set<Id>)
    requires Supply(uuid, start, used) && start <= next
    requires forall r :: r in newIds ==> exists i :: start <= i < next && uuid(i) == r
    ensures Supply(uuid, next, used + newIds) && newIds !! used
  {
  }

  lemma SupplyNarrows(uuid: nat -> Id, start: nat, used: set<Id>, rows: set<Id>)
    requires Supply(uuid, start, used) && rows <= used
    ensures Supply(uuid, start, rows)
  {
  }

  lemma Facts(w: World)
    requires Inv(w) && Meaning(w)
    ensures Sound(w.db) && ForeignKeys(w.db) && w.db.recipients.Keys <= w.used
  {
    hide WorkerInv, WorkerHonest, Honest, MailEligible, Distinct;
  }

  lemma PrepareIsStep(w: World, newIds: map<Id, Id>)
    requires Inv(w) && w.worker.Preparing? && newIds.Keys !! w.used && w.db.recipients.Keys <= w.used
    requires FreshRows(w.db, Eligible(w.db, w.worker.job.tenant, w.worker.job.campaign), newIds)
    ensures
      var job := w.worker.job;
      Step(w, Label.Prepare(newIds)) == Some(
        w.(db := Prepared(w.db, job.campaign, newIds), worker := Listing(job, w.worker.campaign),
           used := w.used + newIds.Keys,
           eligible := w.eligible[job.campaign := Eligible(w.db, job.tenant, job.campaign)]))
  {
    hide Sound, Prepared;
    var job := w.worker.job;
    if job.campaign !in w.db.campaigns {
      GoneIsIneligible(w.db, job.tenant, job.campaign);
      assert newIds == map[];
    }
    hide Eligible, AddedRows;
  }

  lemma InitIsGood(w: World)
    requires Init(w)
    ensures Inv(w) && Meaning(w) && Reaches(w, w)
  {
    hide Inv, Meaning;
    assert Run(w, []) == Some(w);
    RunKeepsMeaning(w, []);
  }

  function MailsTo(job: Job, subject: string, targets: seq<Target>): seq<Mail> {
    seq(|targets|, i requires 0 <= i < |targets| => Mail(job.campaign, targets[i].contactId, targets[i].email, subject))
  }

  /** The worker is where it sets this status. */
  predicate Ready(worker: Worker, l: Label, status: string) {
    || (l.Claim? && worker.Claiming? && status == "sending")
    || (l.Finish? && worker.Sending? && worker.next == |worker.targets|
        && status == if worker.allSuccess then "sent" else "failed")
    || (l.Fail? && worker.Failing? && status == "failed")
  }

  lemma StatusIsStep(w: World, l: Label, status: string)
    requires Inv(w) && Ready(w.worker, l, status)
    ensures
      var job := w.worker.job;
      Step(w, l) == Some(w.(db := After(w.db, SetCampaignStatus(job.tenant, job.campaign, status, l.now)),
                            worker := if l.Claim? then Fetching(job, w.worker.campaign) else Idle))
    ensures SetsStatus(l)
  {
    hide After, Sound, MailedWithin, DistinctContacts;
  }

  class Sender {
    const db: Database
    const uuid: nat -> Id
    var queue: seq<Job>
    var log: seq<Mail>
    var nextId: nat
    ghost const origin: World
    ghost var worker: Worker
    ghost var used: set<Id>
    ghost var imported: set<Id>
    ghost var eligible: map<Id, set<Id>>

    ghost function State(): World
      reads this, db
    {
      World(db.tables, queue, worker, log, used, imported, eligible)
    }

    /** The object is always in a state the machine can reach from a start on a sound database. */
    ghost predicate Valid()
      reads this, db
    {
      && Init(origin) && Reaches(origin, State())
      && Inv(State()) && Meaning(State())
      && Supply(uuid, nextId, used)
    }

    constructor (db: Database, uuid: nat -> Id)
      requires Sound(db.tables)
      requires Supply(uuid, 0, db.tables.campaigns.Keys + db.tables.recipients.Keys)
      ensures Valid() && Init(State()) && this.db == db && this.uuid == uuid
    {
      this.db, this.uuid := db, uuid;
      queue, log, nextId := [], [], 0;
      worker, eligible := Idle, map[];
      used, imported := db.tables.campaigns.Keys + db.tables.recipients.Keys, NotFresh(db.tables);
      origin := World(db.tables, [], Idle, [], db.tables.campaigns.Keys + db.tables.recipients.Keys,
                      NotFresh(db.tables), map[]);
      new;
      hide Sound, Supply;
      InitIsGood(State());
    }

    /**
     * What other requests may do while the worker is between two statements. The body does nothing; what the worker may
     * rely on is the contract, which allows any reachable state with the same worker and the same mails.
     */
    method ServeOthers()
      requires Valid()
      modifies this`queue, this`nextId, this`used, this`imported, db
      ensures Valid()
    {
    }

    /** A full queue blocks the caller, who then tries again; accepted says whether there was room. */
    method Enqueue(job: Job) returns (accepted: bool)
      requires Valid()
      modifies this`queue
      ensures accepted <==> |old(queue)| < 100
      ensures queue == if accepted then old(queue) + [job] else old(queue)
      ensures Valid()
    {
      hide Init, Inv, Meaning, Supply, Reaches;
      ghost var before := State();
      accepted := |queue| < QUEUE_CAPACITY;
      if accepted {
        queue := queue + [job];
        Taken(before, Label.Enqueue(job));
      }
    }

    /** The step was legal, so everything known of the state still holds. */
    lemma Taken(before: World, l: Label)
      requires Inv(before) && Meaning(before) && Reaches(origin, before) && Step(before, l) == Some(State())
      ensures Inv(State()) && Meaning(State()) && Reaches(origin, State())
    {
      hide Inv, Meaning, Step, Reaches;
      StepKeepsInv(before, l);
      StepKeepsMeaning(before, l);
      ReachesStep(origin, before, l, State());
    }

    /** GetCampaignByID and the draft check. */
    method LoadDraft(job: Job) returns (campaign: Option<Campaign>)
      requires Valid() && worker == Loading(job)
      modifies this`worker
      ensures Valid()
      ensures campaign.Some? <==>
        job.campaign in CampaignsOf(db.tables, job.tenant) && db.tables.campaigns[job.campaign].status == "draft"
      ensures campaign.None? ==> worker == Idle
      ensures campaign.Some? ==>
        campaign.value == db.tables.campaigns[job.campaign] && worker == Claiming(job, campaign.value)
    {
      hide Init, Inv, Meaning, Supply, Reaches;
      ghost var before := State();
      if job.campaign !in CampaignsOf(db.tables, job.tenant) || db.tables.campaigns[job.campaign].status != "draft" {
        worker := Idle;
        Taken(before, Load);
        return None;
      }
      campaign := Some(db.tables.campaigns[job.campaign]);
      worker := Claiming(job, campaign.value);
      Taken(before, Load);
    }

    /** SetCampaignStatus, at each of the points the worker calls it. */
    method SetStatus(job: Job, status: string, now: Time, ghost l: Label)
      requires Valid() && Ready(worker, l, status) && l.now == now && worker.job == job
      modifies this`worker, db
      ensures Valid()
      ensures worker == if l.Claim? then Fetching(job, old(worker).campaign) else Idle
      ensures !l.Claim? ==> Settled(State(), job.campaign)
    {
      ghost var before := State();
      StatusIsStep(before, l, status);
      hide Init, Inv, Meaning, Supply, Reaches, Step, After, Settled;
      db.tables := After(db.tables, SetCampaignStatus(job.tenant, job.campaign, status, now));
      worker := if l.Claim? then Fetching(job, worker.campaign) else Idle;
      Taken(before, l);
      if !l.Claim? {
        DoneSettles(before, l);
      }
    }

    /** PrepareCampaignRecipients: never refused, because a campaign that is gone has no segments left either. */
    method Prepare(job: Job) returns (ghost newIds: map<Id, Id>)
      requires Valid() && worker.Preparing? && worker.job == job
      modifies this`worker, this`used, this`eligible, this`nextId, db
      ensures Valid()
      ensures worker == Listing(job, old(worker).campaign)
      ensures FreshRows(old(db.tables), Eligible(old(db.tables), job.tenant, job.campaign), newIds)
      ensures db.tables == Prepared(old(db.tables), job.campaign, newIds)
    {
      hide Init, Inv, Meaning, Supply, Reaches, Step, Sound, ForeignKeys, Eligible, FreshRows, Prepared;
      ghost var before := State();
      ghost var chosen := Eligible(db.tables, job.tenant, job.campaign);
      Facts(before);
      SupplyNarrows(uuid, nextId, used, db.tables.recipients.Keys);
      var count: Option<nat>, next: nat;
      count, next, newIds := PrepareCampaignRecipients(db, job.tenant, job.campaign, uuid, nextId);
      if job.campaign !in before.db.campaigns {
        GoneIsIneligible(before.db, job.tenant, job.campaign);
      }
      SupplyLeft(uuid, nextId, next, used, newIds.Keys);
      PrepareIsStep(before, newIds);
      nextId, eligible, used := next, eligible[job.campaign := chosen], used + newIds.Keys;
      worker := Listing(job, worker.campaign);
      Taken(before, Label.Prepare(newIds));
    }

    /** fetchAttachment, when there is an attachment; it may fail at will. */
    method Fetch(job: Job, campaign: Campaign) returns (ok: bool)
      requires Valid() && worker == Fetching(job, campaign)
      modifies this`worker
      ensures Valid() && (campaign.attachmentUrl == "" ==> ok)
      ensures worker == if ok then Preparing(job, campaign) else Failing(job)
    {
      hide Init, Inv, Meaning, Supply, Reaches;
      ghost var before := State();
      ok := *;
      ok := ok || campaign.attachmentUrl == "";
      worker := if ok then Preparing(job, campaign) else Failing(job);
      Taken(before, Label.Fetch(ok));
    }

    /** GetCampaignRecipients. */
    method List(job: Job) returns (targets: seq<Target>)
      requires Valid() && worker.Listing? && worker.job == job
      modifies this`worker
      ensures Valid() && Lists(db.tables, job, targets)
      ensures worker == Sending(job, old(worker).campaign, targets, 0, true)
    {
      hide Init, Inv, Meaning, Supply, Reaches, Lists, Sound, ForeignKeys, Exec, After;
      ghost var before := State();
      Facts(before);
      targets := GetCampaignRecipients(db, job.tenant, job.campaign);
      worker := Sending(job, worker.campaign, targets, 0, true);
      Taken(before, Label.List(targets));
    }

    /** Mailer.Send: the mail is out whether or not the server took it. */
    method Send(job: Job, campaign: Campaign, targets: seq<Target>, i: nat) returns (delivered: bool)
      requires Valid() && i < |targets| && worker.Sending?
      requires worker == Sending(job, campaign, targets, i, worker.allSuccess)
      modifies this`worker, this`log
      ensures Valid() && worker == Marking(job, campaign, targets, i, old(worker).allSuccess, delivered)
      ensures log == old(log) + [Mail(job.campaign, targets[i].contactId, targets[i].email, campaign.subject)]
    {
      hide Init, Inv, Meaning, Supply, Reaches;
      ghost var before := State();
      delivered := *;
      log := log + [Mail(job.campaign, targets[i].contactId, targets[i].email, campaign.subject)];
      worker := Marking(job, campaign, targets, i, worker.allSuccess, delivered);
      Taken(before, Label.Send(delivered));
    }

    /** UpdateRecipientStatus. */
    method Mark(target: Target, delivered: bool)
      requires Valid() && worker.Marking? && worker.next < |worker.targets|
      requires target == worker.targets[worker.next] && delivered == worker.delivered
      modifies this`worker, db
      ensures Valid()
      ensures worker == Sending(old(worker).job, old(worker).campaign, old(worker).targets, old(worker).next + 1,
                                old(worker).allSuccess && delivered)
    {
      hide Init, Inv, Meaning, Supply, Reaches, After;
      ghost var before := State();
      var error, now: Time := *, *;
      db.tables := After(db.tables, SetRecipientStatus(target.recipientId, if delivered then "sent" else "failed",
                                                       if delivered then "" else error, now));
      worker := Sending(worker.job, worker.campaign, worker.targets, worker.next + 1, worker.allSuccess && delivered);
      Taken(before, Label.Mark(error, now));
    }

    /** From the download to the list of recipients; None when the download failed. */
    method Gather(job: Job, campaign: Campaign) returns (targets: Option<seq<Target>>)
      requires Valid() && worker == Fetching(job, campaign)
      modifies this`queue, this`nextId, this`used, this`imported, this`worker, this`eligible, db
      ensures Valid()
      ensures worker == if targets.None? then Failing(job) else Sending(job, campaign, targets.value, 0, true)
    {
      hide Valid, FreshRows, Eligible, Prepared, Lists;
      var fetched := Fetch(job, campaign);
      if !fetched {
        return None;
      }
      ServeOthers();
      ghost var _ := Prepare(job);
      ServeOthers();
      var rows := List(job);
      return Some(rows);
    }

    /** The send loop: one Send for every target, in order. */
    method SendAll(job: Job, campaign: Campaign, targets: seq<Target>) returns (allSuccess: bool)
      requires Valid() && worker == Sending(job, campaign, targets, 0, true)
      modifies this, db
      ensures Valid() && worker == Sending(job, campaign, targets, |targets|, allSuccess)
      ensures log == old(log) + MailsTo(job, campaign.subject, targets)
    {
      hide Valid;
      var i := 0;
      allSuccess := true;
      while i < |targets|
        invariant Valid() && i <= |targets| && worker == Sending(job, campaign, targets, i, allSuccess)
        invariant log == old(log) + MailsTo(job, campaign.subject, targets[..i])
      {
        ServeOthers();
        var delivered := Send(job, campaign, targets, i);
        ServeOthers();
        Mark(targets[i], delivered);
        assert MailsTo(job, campaign.subject, targets[..i + 1]) == MailsTo(job, campaign.subject, targets[..i])
          + [Mail(job.campaign, targets[i].contactId, targets[i].email, campaign.subject)];
        allSuccess, i := allSuccess && delivered, i + 1;
      }
      assert targets[..i] == targets;
    }

    /** processCampaign from the point where it knows the campaign is a draft. */
    method ProcessDraft(job: Job, campaign: Campaign) returns (ghost targets: seq<Target>)
      requires Valid() && worker == Claiming(job, campaign)
      modifies this, db
      ensures Valid() && worker == Idle && Settled(State(), job.campaign)
      ensures log == old(log) + MailsTo(job, campaign.subject, targets)
    {
      hide Valid, State, Settled;
      targets := [];
      assert MailsTo(job, campaign.subject, []) == [];
      hide MailsTo;
      var now: Time := *;
      SetStatus(job, "sending", now, Claim(now));
      ServeOthers();
      var gathered := Gather(job, campaign);
      ServeOthers();
      if gathered.None? {
        now := *;
        SetStatus(job, "failed", now, Fail(now));
        return;
      }
      targets := gathered.value;
      var allSuccess := SendAll(job, campaign, gathered.value);
      ServeOthers();
      now := *;
      SetStatus(job, if allSuccess then "sent" else "failed", now, Finish(now));
    }

    /**
     * processCampaign. Other requests are served between any two of its statements, and a Send or the download may fail
     * at will. Every target is sent to exactly once and in order, and what is left behind is settled.
     */
    method ProcessCampaign(job: Job) returns (started: bool, ghost subject: string, ghost targets: seq<Target>)
      requires Valid() && worker == Loading(job)
      modifies this, db
      ensures Valid() && worker == Idle
      ensures started <==>
        job.campaign in CampaignsOf(old(db.tables), job.tenant)
          && old(db.tables).campaigns[job.campaign].status == "draft"
      ensures started ==> subject == old(db.tables).campaigns[job.campaign].subject
      ensures log == old(log) + MailsTo(job, subject, targets)
      ensures if started then Settled(State(), job.campaign) else targets == []
    {
      hide Valid, State, Settled;
      assert MailsTo(job, "", []) == [];
      hide MailsTo;
      started, subject, targets := false, "", [];
      var loaded := LoadDraft(job);
      if loaded.None? {
        return;
      }
      var campaign := loaded.value;
      started, subject := true, campaign.subject;
      ServeOthers();
      targets := ProcessDraft(job, campaign);
    }
  }
}

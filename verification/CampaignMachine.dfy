/**
 * Campaign sending as a state machine: the queue, the single worker of backend/marketing/sender.go one database
 * statement at a time, and between any two of them whatever the request handlers do, or a crash.
 */
module CampaignMachine {
  import opened Wrappers
  import opened Schema
  import opened StoreOps
  import opened StoreInvariants
  import opened StoreFrames

  datatype Job = Job(campaign: Id, tenant: Id)

  /** A row of GetCampaignRecipients. */
  datatype Target = Target(recipientId: Id, contactId: Id, email: string, name: string)

  /** One call of Mailer.Send, delivered or not. */
  datatype Mail = Mail(campaign: Id, contact: Id, to: string, subject: string)

  datatype Worker =
    | Idle
    | Loading(job: Job)
    | Claiming(job: Job, campaign: Campaign)
    | Fetching(job: Job, campaign: Campaign)
    | Preparing(job: Job, campaign: Campaign)
    | Listing(job: Job, campaign: Campaign)
    | Sending(job: Job, campaign: Campaign, targets: seq<Target>, next: nat, allSuccess: bool)
    | Marking(job: Job, campaign: Campaign, targets: seq<Target>, next: nat, allSuccess: bool, delivered: bool)
    | Failing(job: Job)

  /**
   * used: every campaign and recipient id ever given out; imported: the campaigns whose status or recipients came from
   * an import; eligible: for each campaign, the contacts that were eligible when its recipients were prepared.
   */
  datatype World = World(db: Tables, queue: seq<Job>, worker: Worker, log: seq<Mail>,
                         used: set<Id>, imported: set<Id>, eligible: map<Id, set<Id>>)

  datatype Label =
    | Handle(op: Op)
    | Enqueue(job: Job)
    | Dequeue
    | Load
    | Claim(now: Time)
    | Fetch(ok: bool)
    | Prepare(newIds: map<Id, Id>)
    | List(rows: seq<Target>)
    | Send(ok: bool)
    | Mark(error: string, now: Time)
    | Finish(now: Time)
    | Fail(now: Time)
    | Crash

  const QUEUE_CAPACITY := 100

  /** The rows GetCampaignRecipients selects, in any order. */
  ghost predicate Lists(db: Tables, job: Job, targets: seq<Target>) {
    && (forall i :: 0 <= i < |targets| ==> Listed(db, job, targets[i]))
    && (forall i, j :: 0 <= i < j < |targets| ==> targets[i].recipientId != targets[j].recipientId)
    && (job.campaign in CampaignsOf(db, job.tenant) ==>
          forall r :: r in db.recipients && db.recipients[r].campaignId == job.campaign ==>
            Covers(targets, |targets|, r))
  }

  ghost predicate Listed(db: Tables, job: Job, t: Target) {
    && job.campaign in CampaignsOf(db, job.tenant)
    && t.recipientId in db.recipients && t.contactId in db.contacts
    && db.recipients[t.recipientId].campaignId == job.campaign && db.recipients[t.recipientId].contactId == t.contactId
    && db.contacts[t.contactId].email == t.email && db.contacts[t.contactId].name == t.name
  }

  /** The recipient row r is among the first n targets. */
  ghost predicate Covers(targets: seq<Target>, n: nat, r: Id)
    requires n <= |targets|
  {
    exists k :: 0 <= k < n && targets[k].recipientId == r
  }

  /** The fresh campaign and recipient ids an operation brings. */
  function NewIds(op: Op): set<Id> {
    if op.CreateCampaign? || op.CreateRecipient? then {op.id} else {}
  }

  function Imports(op: Op): set<Id> {
    if op.CreateCampaign? && (op.campaign.status != "draft" || op.campaign.sentAt.Some?) then {op.id}
    else if op.CreateRecipient? then {op.recipient.campaignId}
    else {}
  }

  ghost function Handled(w: World, op: Op): Option<World> {
    if Handler(op) && InContext(w.db, op) && NewIds(op) !! w.used then
      Some(w.(db := After(w.db, op), used := w.used + NewIds(op), imported := w.imported + Imports(op)))
    else None
  }

  /** A subscribed contact of the tenant in one of the campaign's segments. */
  ghost predicate Addressed(db: Tables, tenant: Id, campaign: Id, contact: Id) {
    && contact in db.contacts && !db.contacts[contact].unsubscribed && db.contacts[contact].tenantId == tenant
    && exists g :: (contact, g) in db.contactSegments && (campaign, g) in db.campaignSegments
  }

  lemma EligibleIs(db: Tables, tenant: Id, campaign: Id)
    ensures forall c :: c in Eligible(db, tenant, campaign) <==> Addressed(db, tenant, campaign, c)
  {
    forall c
      ensures Targeted(db, campaign, c) <==>
        exists g :: (c, g) in db.contactSegments && (campaign, g) in db.campaignSegments
    {
      if Targeted(db, campaign, c) {
        var q :| q in db.contactSegments && q.0 == c && (campaign, q.1) in db.campaignSegments;
        assert (c, q.1) in db.contactSegments;
      }
      if g :| (c, g) in db.contactSegments && (campaign, g) in db.campaignSegments {
        assert (c, g).1 == g;
      }
    }
    hide Targeted;
  }

  ghost function Step(w: World, l: Label): Option<World> {
    match l
    case Handle(op) => Handled(w, op)
    case Enqueue(job) => if |w.queue| < QUEUE_CAPACITY then Some(w.(queue := w.queue + [job])) else None
    case Dequeue =>
      if w.worker.Idle? && w.queue != [] then Some(w.(worker := Loading(w.queue[0]), queue := w.queue[1..])) else None
    case Load =>
      if !w.worker.Loading? then None
      else
        var job := w.worker.job;
        if job.campaign in CampaignsOf(w.db, job.tenant) && w.db.campaigns[job.campaign].status == "draft"
        then Some(w.(worker := Claiming(job, w.db.campaigns[job.campaign])))
        else Some(w.(worker := Idle))
    case Claim(now) =>
      if !w.worker.Claiming? then None
      else Some(WithCampaignStatus(w, w.worker.job, "sending", now)
                .(worker := Fetching(w.worker.job, w.worker.campaign)))
    case Fetch(ok) =>
      if !w.worker.Fetching? then None
      else if w.worker.campaign.attachmentUrl == "" || ok
      then Some(w.(worker := Preparing(w.worker.job, w.worker.campaign)))
      else Some(w.(worker := Failing(w.worker.job)))
    case Prepare(newIds) =>
      if !w.worker.Preparing? then None
      else
        var job := w.worker.job;
        var chosen := Eligible(w.db, job.tenant, job.campaign);
        if !FreshRows(w.db, chosen, newIds) || !(newIds.Keys !! w.used) then None
        else
          (match Exec(w.db, PrepareRecipients(job.tenant, job.campaign, newIds))
           case None => Some(w.(worker := Failing(job)))
           case Some(db) => Some(w.(db := db, worker := Listing(job, w.worker.campaign), used := w.used + newIds.Keys,
                                    eligible := w.eligible[job.campaign := chosen])))
    case List(rows) =>
      if w.worker.Listing? && Lists(w.db, w.worker.job, rows)
      then Some(w.(worker := Sending(w.worker.job, w.worker.campaign, rows, 0, true)))
      else None
    case Send(ok) =>
      if w.worker.Sending? && w.worker.next < |w.worker.targets| then
        var Sending(job, campaign, targets, next, allSuccess) := w.worker;
        var mail := Mail(job.campaign, targets[next].contactId, targets[next].email, campaign.subject);
        Some(w.(log := w.log + [mail], worker := Marking(job, campaign, targets, next, allSuccess, ok)))
      else None
    case Mark(error, now) =>
      if w.worker.Marking? && w.worker.next < |w.worker.targets| then
        var Marking(job, campaign, targets, next, allSuccess, delivered) := w.worker;
        var marked := SetRecipientStatus(targets[next].recipientId, if delivered then "sent" else "failed",
                                         if delivered then "" else error, now);
        Some(w.(db := After(w.db, marked),
                worker := Sending(job, campaign, targets, next + 1, allSuccess && delivered)))
      else None
    case Finish(now) =>
      if w.worker.Sending? && w.worker.next >= |w.worker.targets| then
        var status := if w.worker.allSuccess then "sent" else "failed";
        Some(WithCampaignStatus(w, w.worker.job, status, now).(worker := Idle))
      else None
    case Fail(now) =>
      if w.worker.Failing? then Some(WithCampaignStatus(w, w.worker.job, "failed", now).(worker := Idle)) else None
    case Crash => Some(w.(worker := Idle, queue := []))
  }

  function WithCampaignStatus(w: World, job: Job, status: string, now: Time): World {
    w.(db := After(w.db, SetCampaignStatus(job.tenant, job.campaign, status, now)))
  }

  ghost function Run(w: World, ls: seq<Label>): Option<World> {
    if ls == [] then Some(w)
    else
      match Run(w, ls[..|ls| - 1])
      case None => None
      case Some(v) => Step(v, ls[|ls| - 1])
  }

  /** The campaign is a draft that nobody prepared yet. */
  predicate FreshDraft(db: Tables, c: Id)
    requires c in db.campaigns
  {
    && db.campaigns[c].status == "draft" && db.campaigns[c].sentAt.None?
    && forall r :: r in db.recipients ==> db.recipients[r].campaignId != c
  }

  function NotFresh(db: Tables): set<Id> {
    set c | c in db.campaigns && !FreshDraft(db, c)
  }

  /** A start on any sound database; of the campaigns already there, all but the fresh drafts count as imported. */
  ghost predicate Init(w: World) {
    && Sound(w.db) && w.queue == [] && w.worker == Idle && w.log == []
    && w.used == w.db.campaigns.Keys + w.db.recipients.Keys && w.imported == NotFresh(w.db) && w.eligible == map[]
  }

  // --- At most one Send per campaign and contact ---

  ghost predicate Distinct(log: seq<Mail>) {
    forall i, j :: 0 <= i < j < |log| ==> log[i].campaign != log[j].campaign || log[i].contact != log[j].contact
  }

  predicate Mailed(log: seq<Mail>, c: Id) {
    exists i :: 0 <= i < |log| && log[i].campaign == c
  }

  /** Every mail of the campaign went to one of the first n targets. */
  ghost predicate MailedWithin(log: seq<Mail>, c: Id, targets: seq<Target>, n: nat)
    requires n <= |targets|
  {
    forall i :: 0 <= i < |log| && log[i].campaign == c ==>
      exists k :: 0 <= k < n && targets[k].contactId == log[i].contact
  }

  ghost predicate DistinctContacts(targets: seq<Target>) {
    forall i, j :: 0 <= i < j < |targets| ==> targets[i].contactId != targets[j].contactId
  }

  /** The campaign, while it exists, belongs to the job's tenant and has this status. */
  predicate Holds(db: Tables, job: Job, status: string) {
    job.campaign in db.campaigns ==>
      db.campaigns[job.campaign].tenantId == job.tenant && db.campaigns[job.campaign].status == status
  }

  ghost predicate WorkerInv(w: World) {
    match w.worker
    case Idle => true
    case Loading(_) => true
    case Claiming(job, _) => job.campaign in w.used && Holds(w.db, job, "draft") && !Mailed(w.log, job.campaign)
    case Sending(job, _, targets, next, _) =>
      && job.campaign in w.used && Holds(w.db, job, "sending")
      && next <= |targets| && DistinctContacts(targets) && MailedWithin(w.log, job.campaign, targets, next)
    case Marking(job, _, targets, next, _, _) =>
      && job.campaign in w.used && Holds(w.db, job, "sending")
      && next < |targets| && DistinctContacts(targets) && MailedWithin(w.log, job.campaign, targets, next + 1)
    case _ =>
      && w.worker.job.campaign in w.used && Holds(w.db, w.worker.job, "sending")
      && !Mailed(w.log, w.worker.job.campaign)
  }

  ghost predicate Inv(w: World) {
    && Sound(w.db)
    && w.db.campaigns.Keys <= w.used
    && (forall i :: 0 <= i < |w.log| ==> w.log[i].campaign in w.used && NotDraft(w.db, w.log[i].campaign))
    && Distinct(w.log)
    && WorkerInv(w)
  }

  predicate NotDraft(db: Tables, c: Id) {
    c in db.campaigns ==> db.campaigns[c].status != "draft"
  }

  lemma HandlerFrame(w: World, op: Op, job: Job, status: string)
    requires Sound(w.db) && w.db.campaigns.Keys <= w.used && Handled(w, op).Some? && job.campaign in w.used
    ensures Holds(w.db, job, status) ==> Holds(Handled(w, op).value.db, job, status)
    ensures NotDraft(w.db, job.campaign) ==> NotDraft(Handled(w, op).value.db, job.campaign)
  {
    hide Sound, After;
    if job.campaign in After(w.db, op).campaigns {
      StatusFramed(w.db, op, job.campaign);
    }
  }

  lemma HandlerKeepsUsed(w: World, op: Op)
    requires Sound(w.db) && w.db.campaigns.Keys <= w.used && Handled(w, op).Some?
    ensures Handled(w, op).value.db.campaigns.Keys <= Handled(w, op).value.used
  {
    hide Sound, After;
    forall c | c in After(w.db, op).campaigns
      ensures c in Handled(w, op).value.used
    {
      StatusFramed(w.db, op, c);
    }
  }

  lemma HandlerKeepsInv(w: World, op: Op)
    requires Inv(w) && Handled(w, op).Some?
    ensures Inv(Handled(w, op).value)
  {
    hide After, Sound, InContext, MailedWithin, DistinctContacts, Holds, NotDraft, Mailed;
    SoundKept(w.db, op);
    HandlerKeepsUsed(w, op);
    forall job: Job, status | job.campaign in w.used
      ensures Holds(w.db, job, status) ==> Holds(Handled(w, op).value.db, job, status)
      ensures NotDraft(w.db, job.campaign) ==> NotDraft(Handled(w, op).value.db, job.campaign)
    {
      HandlerFrame(w, op, job, status);
    }
    forall c | c in w.used && NotDraft(w.db, c)
      ensures NotDraft(Handled(w, op).value.db, c)
    {
      HandlerFrame(w, op, Job(c, ""), "");
    }
  }

  lemma StatusSetKeepsSound(w: World, job: Job, status: string, now: Time)
    requires Sound(w.db)
    ensures
      var v := WithCampaignStatus(w, job, status, now);
      && v == w.(db := v.db) && Sound(v.db)
      && v.db == w.db.(campaigns := v.db.campaigns)
      && v.db.campaigns.Keys == w.db.campaigns.Keys
      && (forall c :: c in w.db.campaigns ==> v.db.campaigns[c].tenantId == w.db.campaigns[c].tenantId)
      && (forall c :: c in w.db.campaigns && c != job.campaign ==> v.db.campaigns[c] == w.db.campaigns[c])
      && (job.campaign in w.db.campaigns && w.db.campaigns[job.campaign].tenantId == job.tenant ==>
            v.db.campaigns[job.campaign].status == status)
  {
    hide Sound;
    SoundKept(w.db, SetCampaignStatus(job.tenant, job.campaign, status, now));
  }

  lemma ListingIsDistinct(db: Tables, job: Job, targets: seq<Target>)
    requires Sound(db) && Lists(db, job, targets)
    ensures DistinctContacts(targets)
  {
    forall i, j | 0 <= i < j < |targets|
      ensures targets[i].contactId != targets[j].contactId
    {
      var r, q := targets[i].recipientId, targets[j].recipientId;
      assert Listed(db, job, targets[i]) && Listed(db, job, targets[j]);
      assert !SamePair(db.recipients[r], db.recipients[q]);
    }
  }

  lemma SendKeepsInv(w: World, ok: bool)
    requires Inv(w) && Step(w, Send(ok)).Some?
    ensures Inv(Step(w, Send(ok)).value)
  {
    hide Exec, After;
    hide Sound;
    var v := Step(w, Send(ok)).value;
    var Sending(job, campaign, targets, next, _) := w.worker;
    assert MailedWithin(v.log, job.campaign, targets, next + 1) by {
      assert targets[next].contactId == v.log[|w.log|].contact;
    }
    assert NotDraft(v.db, job.campaign);
  }

  lemma ClaimKeepsInv(w: World, now: Time)
    requires Inv(w) && Step(w, Claim(now)).Some?
    ensures Inv(Step(w, Claim(now)).value)
  {
    hide Exec, After, Sound, MailedWithin, DistinctContacts;
    StatusSetKeepsSound(w, w.worker.job, "sending", now);
    hide WithCampaignStatus;
  }

  lemma EndKeepsInv(w: World, l: Label)
    requires Inv(w) && Step(w, l).Some? && (l.Finish? || l.Fail?)
    ensures Inv(Step(w, l).value)
  {
    hide Exec, After, Sound, MailedWithin, DistinctContacts;
    var status := if l.Finish? && w.worker.allSuccess then "sent" else "failed";
    StatusSetKeepsSound(w, w.worker.job, status, l.now);
    hide WithCampaignStatus;
  }

  lemma PrepareKeepsInv(w: World, newIds: map<Id, Id>)
    requires Inv(w) && Step(w, Prepare(newIds)).Some?
    ensures Inv(Step(w, Prepare(newIds)).value)
  {
    hide Sound, Eligible, FreshRows;
    var op := PrepareRecipients(w.worker.job.tenant, w.worker.job.campaign, newIds);
    SoundKept(w.db, op);
    CampaignsUntouched(w.db, op);
    hide Prepared;
  }

  lemma MarkKeepsInv(w: World, error: string, now: Time)
    requires Inv(w) && Step(w, Mark(error, now)).Some?
    ensures Inv(Step(w, Mark(error, now)).value)
  {
    hide Sound;
    var marked := SetRecipientStatus(w.worker.targets[w.worker.next].recipientId,
                                     if w.worker.delivered then "sent" else "failed",
                                     if w.worker.delivered then "" else error, now);
    SoundKept(w.db, marked);
    CampaignsUntouched(w.db, marked);
    hide After;
  }

  lemma StepKeepsInv(w: World, l: Label)
    requires Inv(w) && Step(w, l).Some?
    ensures Inv(Step(w, l).value)
  {
    hide Exec, After;
    if l.Handle? {
      hide Inv;
      HandlerKeepsInv(w, l.op);
    } else if l.Claim? {
      hide Inv, Step;
      ClaimKeepsInv(w, l.now);
    } else if l.Finish? || l.Fail? {
      hide Inv, Step;
      EndKeepsInv(w, l);
    } else if l.Prepare? {
      hide Inv, Step;
      PrepareKeepsInv(w, l.newIds);
    } else if l.Send? {
      hide Inv, Step;
      SendKeepsInv(w, l.ok);
    } else if l.Mark? {
      hide Inv, Step;
      MarkKeepsInv(w, l.error, l.now);
    } else {
      if l.List? {
        ListingIsDistinct(w.db, w.worker.job, l.rows);
      }
      hide Sound, Lists;
    }
  }

  lemma {:induction false} RunKeepsInv(w: World, ls: seq<Label>)
    requires Init(w) && Run(w, ls).Some?
    ensures Inv(Run(w, ls).value)
  {
    hide Inv, Step, Init;
    if ls == [] {
      InitInv(w);
    } else {
      var n := |ls| - 1;
      RunKeepsInv(w, ls[..n]);
      StepKeepsInv(Run(w, ls[..n]).value, ls[n]);
    }
  }

  lemma InitInv(w: World)
    requires Init(w)
    ensures Inv(w)
  {
  }

  /**
   * However the worker's steps interleave with enqueues, handlers and crashes, Send is called at most once for
   * each campaign and contact.
   */
  lemma MailedAtMostOnce(w: World, ls: seq<Label>)
    requires Init(w) && Run(w, ls).Some?
    ensures Distinct(Run(w, ls).value.log)
  {
    RunKeepsInv(w, ls);
  }
}

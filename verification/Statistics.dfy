/**
 * The two ways backend/marketing/store.go counts a campaign's recipients: GetCampaignStats over an inner join, and
 * ListCampaigns over a grouped LEFT JOIN whose one row without a recipient has to be taken back out of the total.
 */
module Statistics {
  import opened Wrappers
  import opened Schema
  import opened StoreOps
  import opened CampaignMachine
  import opened CampaignMeaning

  datatype Stats = Stats(total: nat, queued: nat, sent: nat, failed: nat, opens: nat)

  function RowsOf(db: Tables, c: Id): set<Id> {
    set r | r in db.recipients && db.recipients[r].campaignId == c
  }

  function WithStatusOf(db: Tables, rows: set<Id>, status: string): set<Id> {
    set r | r in rows && r in db.recipients && db.recipients[r].status == status
  }

  function OpenedOf(db: Tables, rows: set<Id>): set<Id> {
    set r | r in rows && r in db.recipients && db.recipients[r].openedAt.Some?
  }

  /** Each SUM(CASE ... THEN 1 ELSE 0 END) of both queries; a row without a recipient adds nothing to it. */
  function Counts(db: Tables, rows: set<Id>, total: nat): Stats {
    Stats(total, |WithStatusOf(db, rows, "queued")|, |WithStatusOf(db, rows, "sent")|,
          |WithStatusOf(db, rows, "failed")|,
          |OpenedOf(db, rows)|)
  }

  /** GetCampaignStats; a campaign of another tenant has no joined rows. */
  function CampaignStats(db: Tables, tid: Id, c: Id): Stats {
    var rows := if c in CampaignsOf(db, tid) then RowsOf(db, c) else {};
    Counts(db, rows, |rows|)
  }

  /** The group of one campaign in ListCampaigns: without recipients it still has one row. */
  function Grouped(db: Tables, c: Id): Stats {
    var rows := RowsOf(db, c);
    Counts(db, rows, if rows == {} then 1 else |rows|)
  }

  function Corrected(s: Stats): Stats {
    if s.queued == 0 && s.sent == 0 && s.failed == 0 then s.(total := 0) else s
  }

  predicate Known(status: string) {
    status == "queued" || status == "sent" || status == "failed"
  }

  lemma SomeCounted(db: Tables, c: Id)
    ensures
      var g := Grouped(db, c);
      g.queued == 0 && g.sent == 0 && g.failed == 0 <==>
        forall r :: r in RowsOf(db, c) ==> !Known(db.recipients[r].status)
  {
    var rows := RowsOf(db, c);
    if r :| r in rows && Known(db.recipients[r].status) {
      assert r in WithStatusOf(db, rows, db.recipients[r].status);
    }
    if forall r :: r in rows ==> !Known(db.recipients[r].status) {
      assert WithStatusOf(db, rows, "queued") == {} && WithStatusOf(db, rows, "sent") == {}
          && WithStatusOf(db, rows, "failed") == {};
    }
  }

  /** A campaign without recipients, or with one whose status is counted. */
  predicate Countable(db: Tables, c: Id) {
    RowsOf(db, c) == {} || exists r :: r in RowsOf(db, c) && Known(db.recipients[r].status)
  }

  /** Where the two counts differ, the summary's total is zero and nothing else is wrong. */
  lemma SummaryIs(db: Tables, tid: Id, c: Id)
    requires c in CampaignsOf(db, tid)
    ensures
      var stats := CampaignStats(db, tid, c);
      Corrected(Grouped(db, c)) == if Countable(db, c) then stats else stats.(total := 0)
  {
    SummariesAgreeExactly(db, tid, c);
    SomeCounted(db, c);
    hide WithStatusOf, OpenedOf;
  }

  datatype Summary = Summary(subject: string, fromName: string, fromEmail: string, status: string, sentAt: Option<Time>,
                             createdAt: Time, stats: Stats)

  /** The columns of the campaign's row. */
  predicate ColumnsOf(row: Campaign, s: Summary) {
    && s.subject == row.subject && s.fromName == row.fromName && s.fromEmail == row.fromEmail && s.status == row.status
    && s.sentAt == row.sentAt && s.createdAt == row.createdAt
  }

  /** Every number counts the rows of the campaign that it names. */
  ghost predicate StatsOf(db: Tables, c: Id, s: Stats) {
    var rows := db.recipients;
    && s.total == |set r | r in rows && rows[r].campaignId == c|
    && s.queued == |set r | r in rows && rows[r].campaignId == c && rows[r].status == "queued"|
    && s.sent == |set r | r in rows && rows[r].campaignId == c && rows[r].status == "sent"|
    && s.failed == |set r | r in rows && rows[r].campaignId == c && rows[r].status == "failed"|
    && s.opens == |set r | r in rows && rows[r].campaignId == c && rows[r].openedAt.Some?|
  }

  lemma StatsAre(db: Tables, tid: Id, c: Id)
    requires c in CampaignsOf(db, tid)
    ensures StatsOf(db, c, CampaignStats(db, tid, c))
  {
    var all, rows := RowsOf(db, c), db.recipients;
    assert WithStatusOf(db, all, "queued")
        == set r | r in rows && rows[r].campaignId == c && rows[r].status == "queued";
    assert WithStatusOf(db, all, "sent") == set r | r in rows && rows[r].campaignId == c && rows[r].status == "sent";
    assert WithStatusOf(db, all, "failed")
        == set r | r in rows && rows[r].campaignId == c && rows[r].status == "failed";
    assert OpenedOf(db, all) == set r | r in rows && rows[r].campaignId == c && rows[r].openedAt.Some?;
    hide WithStatusOf, OpenedOf;
  }

  function SummaryOf(row: Campaign, stats: Stats): Summary {
    Summary(row.subject, row.fromName, row.fromEmail, row.status, row.sentAt, row.createdAt, stats)
  }

  /**
   * ListCampaigns: one summary for every campaign of the tenant, with its columns and the counts of GetCampaignStats,
   * except that a campaign whose recipients all have unknown statuses gets the total zero.
   */
  method ListCampaigns(db: Database, tid: Id) returns (summaries: map<Id, Summary>)
    ensures summaries.Keys == CampaignsOf(db.tables, tid)
    ensures forall c :: c in summaries ==>
      var stats := CampaignStats(db.tables, tid, c);
      summaries[c] == SummaryOf(db.tables.campaigns[c], if Countable(db.tables, c) then stats else stats.(total := 0))
    ensures forall c :: c in summaries ==>
      && ColumnsOf(db.tables.campaigns[c], summaries[c])
      && (Countable(db.tables, c) ==> StatsOf(db.tables, c, summaries[c].stats))
      && (!Countable(db.tables, c) ==>
            summaries[c].stats.total == 0 && exists n :: StatsOf(db.tables, c, summaries[c].stats.(total := n)))
  {
    forall c | c in CampaignsOf(db.tables, tid)
      ensures StatsOf(db.tables, c, CampaignStats(db.tables, tid, c))
    {
      StatsAre(db.tables, tid, c);
    }
    hide Grouped, CampaignStats, Countable, StatsOf;
    summaries := map[];
    var pending := CampaignsOf(db.tables, tid);
    while pending != {}
      invariant pending <= CampaignsOf(db.tables, tid) && summaries.Keys == CampaignsOf(db.tables, tid) - pending
      invariant forall c :: c in summaries ==>
        var stats := CampaignStats(db.tables, tid, c);
        summaries[c] == SummaryOf(db.tables.campaigns[c], if Countable(db.tables, c) then stats else stats.(total := 0))
    {
      var c :| c in pending;
      var cs := Grouped(db.tables, c);
      SummaryIs(db.tables, tid, c);
      if cs.queued == 0 && cs.sent == 0 && cs.failed == 0 {
        cs := cs.(total := 0);
      }
      summaries, pending := summaries[c := SummaryOf(db.tables.campaigns[c], cs)], pending - {c};
    }
  }

  /** The two counts agree exactly when the campaign has no recipients or one whose status is counted. */
  lemma SummariesAgreeExactly(db: Tables, tid: Id, c: Id)
    requires c in CampaignsOf(db, tid)
    ensures Corrected(Grouped(db, c)) == CampaignStats(db, tid, c) <==> Countable(db, c)
  {
    SomeCounted(db, c);
    var rows := RowsOf(db, c);
    if rows == {} {
      assert WithStatusOf(db, rows, "queued") == {};
    }
    hide WithStatusOf, OpenedOf;
  }

  /** The three statuses partition the recipients exactly when every status is one of them. */
  lemma CountsConserve(db: Tables, tid: Id, c: Id)
    requires c in CampaignsOf(db, tid)
    ensures
      var s := CampaignStats(db, tid, c);
      && s.opens <= s.total && s.queued + s.sent + s.failed <= s.total
      && (s.total == s.queued + s.sent + s.failed <==>
            forall r :: r in RowsOf(db, c) ==> Known(db.recipients[r].status))
  {
    var rows := RowsOf(db, c);
    var queued, sent, failed := WithStatusOf(db, rows, "queued"), WithStatusOf(db, rows, "sent"),
      WithStatusOf(db, rows, "failed");
    assert queued !! sent && queued + sent !! failed;
    var counted := queued + sent + failed;
    assert |counted| == |queued| + |sent| + |failed|;
    SubsetCount(counted, rows);
    SubsetCount(OpenedOf(db, rows), rows);
    assert counted == rows <==> forall r :: r in rows ==> Known(db.recipients[r].status);
  }

  lemma SubsetCount(part: set<Id>, all: set<Id>)
    requires part <= all
    ensures |part| <= |all| && (|part| == |all| <==> part == all)
  {
    assert all == part + (all - part);
    if part != all {
      var x :| x in all - part;
      assert |all - part| > 0;
    }
  }

  /** What the rows of a campaign say of its counts. */
  lemma RowsCount(db: Tables, tid: Id, c: Id)
    requires c in CampaignsOf(db, tid)
    ensures
      var s, rows := CampaignStats(db, tid, c), Rows(db, c);
      && (AllSent(rows) ==> s.sent == s.total) && (NoneQueued(rows) ==> s.queued == 0)
      && (SomeFailed(rows) ==> s.failed > 0) && (rows == map[] ==> s.total == 0)
  {
    var all, rows := RowsOf(db, c), Rows(db, c);
    forall r | r in all
      ensures r in rows && rows[r].status == db.recipients[r].status
    {
    }
    if AllSent(rows) {
      assert WithStatusOf(db, all, "sent") == all;
    }
    if NoneQueued(rows) {
      assert WithStatusOf(db, all, "queued") == {};
    }
    if SomeFailed(rows) {
      var r :| r in rows && rows[r].status == "failed";
      assert r in WithStatusOf(db, all, "failed");
    }
    if rows == map[] {
      assert all == {} by {
        assert forall r :: r in all ==> r in rows;
      }
    }
  }

  lemma KnownRows(w: World, c: Id)
    requires Honest(w, c) && Native(w, c)
    ensures forall r :: r in RowsOf(w.db, c) ==> Known(w.db.recipients[r].status)
  {
    hide StatusHonest, OnlyEligible, Mailed;
    forall r | r in RowsOf(w.db, c)
      ensures Known(w.db.recipients[r].status)
    {
      assert r in Rows(w.db, c) && Rows(w.db, c)[r].status == w.db.recipients[r].status;
    }
  }

  /**
   * In every reachable state, of every campaign no import touched, the counts agree, nothing is lost between them, and
   * they fit the campaign's status: a draft has none, in a sent one all are sent, and in a failed one none is queued
   * and one failed unless there are none.
   */
  lemma StatisticsInEveryRun(w: World, ls: seq<Label>, tid: Id, c: Id)
    requires Init(w) && Run(w, ls).Some?
    ensures
      var v := Run(w, ls).value;
      Native(v, c) && v.db.campaigns[c].tenantId == tid ==>
        var s := CampaignStats(v.db, tid, c);
        && Corrected(Grouped(v.db, c)) == s && s.total == s.queued + s.sent + s.failed && s.opens <= s.total
        && (v.db.campaigns[c].status == "draft" ==> s.total == 0)
        && (v.db.campaigns[c].status == "sent" ==> s.sent == s.total)
        && (v.db.campaigns[c].status == "failed" ==> s.queued == 0 && (s.failed > 0 || s.total == 0))
  {
    RunKeepsMeaning(w, ls);
    var v := Run(w, ls).value;
    hide Inv, Run, Init;
    if Native(v, c) && v.db.campaigns[c].tenantId == tid {
      assert Honest(v, c);
      KnownRows(v, c);
      hide Meaning, Corrected, Grouped, CampaignStats, RowsOf, Rows, AllSent, NoneQueued, SomeFailed;
      RowsCount(v.db, tid, c);
      SummariesAgreeExactly(v.db, tid, c);
      CountsConserve(v.db, tid, c);
      if RowsOf(v.db, c) != {} {
        var r :| r in RowsOf(v.db, c);
        assert Known(v.db.recipients[r].status);
      }
    }
  }
}

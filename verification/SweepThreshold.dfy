/** Sweeping is unobservable for exactly the limits >= 1 with a ttl of at least a minute. */
module SweepThreshold {
  import opened TokenBucket
  import opened BucketTheorems
  import opened Wrappers

  /** The request at i is answered as it would be had no entry ever been forgotten. */
  ghost predicate AnsweredUnswept(limit: real, ttl: real, es: seq<Event>, i: nat)
    requires limit > 0.0 && i < |es| && es[i].Request?
  {
    var unswept := Requests(es[..i]) + [es[i]];
    AnswerAt(limit, ttl, es, i) == AnswerAt(limit, ttl, unswept, |unswept| - 1)
  }

  ghost predicate SweepsHidden(limit: real, ttl: real)
    requires limit > 0.0
  {
    forall es: seq<Event>, i | Ordered(es) && 0 <= i < |es| && es[i].Request? :: AnsweredUnswept(limit, ttl, es, i)
  }

  lemma SweepsHiddenExactly(limit: real, ttl: real)
    requires limit > 0.0
    ensures SweepsHidden(limit, ttl) <==> limit >= 1.0 && ttl >= 60.0
  {
    if limit >= 1.0 && ttl >= 60.0 {
      forall es: seq<Event>, i | Ordered(es) && 0 <= i < |es| && es[i].Request?
        ensures AnsweredUnswept(limit, ttl, es, i)
      {
        SweepingIsUnobservable(limit, ttl, es, i);
      }
    } else if limit < 1.0 {
      SmallLimitShows(limit, ttl);
    } else {
      ShortTtlShows(limit, ttl);
    }
  }

  /** Below one token a key is admitted once and never again, unless it is forgotten in between. */
  lemma SmallLimitShows(limit: real, ttl: real)
    requires 0.0 < limit < 1.0
    ensures !SweepsHidden(limit, ttl)
  {
    var s := if ttl > 0.0 then ttl + 1.0 else 1.0;
    var es := [Request(0.0), Sweep(s), Request(s)];
    assert es[..2][..1] == es[..1] == [Request(0.0)];
    assert [Request(0.0)][..0] == [];
    assert AnswerAt(limit, ttl, es, 2).Admitted? by {
      assert CellAfter(limit, ttl, es[..1]) == Some(Bucket(limit - 1.0, 0.0));
      assert CellAfter(limit, ttl, es[..2]) == None;
    }
    var unswept := [Request(0.0), Request(s)];
    assert Requests(es[..1]) == [Request(0.0)];
    assert Requests(es[..2]) + [es[2]] == unswept;
    assert unswept[..1] == [Request(0.0)];
    assert AnswerAt(limit, ttl, unswept, 1).Denied? by {
      assert CellAfter(limit, ttl, unswept[..1]) == Some(Bucket(limit - 1.0, 0.0));
      assert Refill(limit, Bucket(limit - 1.0, 0.0), s) <= limit;
    }
    hide AnswerAt;
    assert !AnsweredUnswept(limit, ttl, es, 2);
  }

  function Burst(n: nat, t: real): seq<Event> {
    if n == 0 then [] else Burst(n - 1, t) + [Request(t)]
  }

  /** Drain from t: as many requests as a full bucket holds, then one as soon as it holds one token again. */
  function Drain(limit: real, t: real): seq<Event>
    requires limit >= 1.0
  {
    var n := limit.Floor;
    Burst(n, t) + [Request(t + Refilling(limit))]
  }

  lemma RefillAfter(limit: real, tokens: real, t: real, wait: real)
    ensures Refill(limit, Bucket(tokens, t), t + wait) == Min(limit, tokens + Earned(limit, wait))
    ensures wait == 0.0 ==> Earned(limit, wait) == 0.0
  {
    assert t + wait - t == wait;
  }

  lemma {:induction false} BurstAdmitted(limit: real, ttl: real, es: seq<Event>, n: nat, t: real)
    requires limit >= 1.0 && n as real <= limit
    requires CellAfter(limit, ttl, es).None?
    ensures |Burst(n, t)| == n && forall k :: 0 <= k < n ==> Burst(n, t)[k] == Request(t)
    ensures n > 0 ==> CellAfter(limit, ttl, es + Burst(n, t)) == Some(Bucket(limit - n as real, t))
    ensures forall k :: |es| <= k < |es| + n ==> AnswerAt(limit, ttl, es + Burst(n, t), k).Admitted?
  {
    hide Refill, Earned;
    if n > 0 {
      BurstAdmitted(limit, ttl, es, n - 1, t);
      RefillAfter(limit, limit - (n - 1) as real, t, 0.0);
      var run, shorter := es + Burst(n, t), es + Burst(n - 1, t);
      assert run[..|run| - 1] == shorter;
      if n == 1 {
        assert shorter == es;
      }
      forall k | |es| <= k < |es| + n
        ensures AnswerAt(limit, ttl, run, k).Admitted?
      {
        if k < |es| + n - 1 {
          assert run[..k] == shorter[..k];
          assert AnswerAt(limit, ttl, shorter, k).Admitted?;
        }
      }
    }
  }

  /** How long a bucket drained by a burst takes to hold one token again. */
  function Refilling(limit: real): real
    requires limit > 0.0
  {
    (limit.Floor as real + 1.0 - limit) / Rate(limit)
  }

  lemma RefillingEarns(limit: real)
    requires limit >= 1.0
    ensures Refilling(limit) > 0.0 && Earned(limit, Refilling(limit)) == limit.Floor as real + 1.0 - limit
  {
    var r := Rate(limit);
    var missing := limit.Floor as real + 1.0 - limit;
    assert (missing / r) * r == missing;
    assert missing / r > 0.0;
  }

  lemma DrainAdmitted(limit: real, ttl: real, es: seq<Event>, t: real)
    requires limit >= 1.0
    requires CellAfter(limit, ttl, es).None?
    ensures
      var run := es + Drain(limit, t);
      && |Drain(limit, t)| == limit.Floor + 1
      && (forall k :: 0 <= k < limit.Floor ==> Drain(limit, t)[k] == Request(t))
      && Drain(limit, t)[limit.Floor] == Request(t + Refilling(limit))
      && CellAfter(limit, ttl, run) == Some(Bucket(0.0, t + Refilling(limit)))
      && (forall k :: |es| <= k < |run| ==> AnswerAt(limit, ttl, run, k).Admitted?)
  {
    hide Refill, Earned, Refilling;
    var n := limit.Floor;
    RefillingEarns(limit);
    BurstAdmitted(limit, ttl, es, n, t);
    RefillAfter(limit, limit - n as real, t, Refilling(limit));
    var burst, run := es + Burst(n, t), es + Drain(limit, t);
    assert run[..|run| - 1] == burst;
    forall k | |es| <= k < |run|
      ensures AnswerAt(limit, ttl, run, k).Admitted?
    {
      if k < |run| - 1 {
        assert run[..k] == burst[..k] && run[k] == burst[k];
        assert AnswerAt(limit, ttl, burst, k).Admitted?;
      }
    }
  }

  lemma {:induction false} AllAdmitted(limit: real, ttl: real, rs: seq<Event>)
    requires limit > 0.0
    requires forall k :: 0 <= k < |rs| ==> rs[k].Request?
    requires forall k :: 0 <= k < |rs| ==> AnswerAt(limit, ttl, rs, k).Admitted?
    ensures |Admissions(limit, ttl, rs)| == |rs|
    ensures forall k :: 0 <= k < |rs| ==> Admissions(limit, ttl, rs)[k] == rs[k].at
  {
    if rs != [] {
      var n := |rs| - 1;
      forall k | 0 <= k < n
        ensures AnswerAt(limit, ttl, rs[..n], k).Admitted?
      {
        assert rs[..n][..k] == rs[..k];
        assert AnswerAt(limit, ttl, rs, k).Admitted?;
      }
      AllAdmitted(limit, ttl, rs[..n]);
    }
  }

  lemma {:induction false} RequestsOnly(rs: seq<Event>)
    requires forall k :: 0 <= k < |rs| ==> rs[k].Request?
    ensures Requests(rs) == rs
  {
    if rs != [] {
      RequestsOnly(rs[..|rs| - 1]);
    }
  }

  lemma {:induction false} RequestsAcross(before: seq<Event>, rs: seq<Event>)
    requires forall k :: 0 <= k < |rs| ==> rs[k].Request?
    ensures Requests(before + rs) == Requests(before) + rs
  {
    if rs == [] {
      assert before + rs == before;
    } else {
      var n := |rs| - 1;
      RequestsAcross(before, rs[..n]);
      assert (before + rs)[..|before| + n] == before + rs[..n];
      assert Requests(before) + rs[..n] + [rs[n]] == Requests(before) + rs;
    }
  }

  lemma RequestsDropSweep(rs: seq<Event>, tick: real)
    ensures Requests(rs + [Sweep(tick)]) == Requests(rs)
  {
    assert (rs + [Sweep(tick)])[..|rs|] == rs;
  }

  lemma {:induction false} TtlIsForSweeps(limit: real, ttl: real, other: real, rs: seq<Event>)
    requires limit > 0.0
    requires forall k :: 0 <= k < |rs| ==> rs[k].Request?
    ensures CellAfter(limit, ttl, rs) == CellAfter(limit, other, rs)
  {
    if rs != [] {
      TtlIsForSweeps(limit, ttl, other, rs[..|rs| - 1]);
    }
  }

  lemma Unswept(limit: real, ttl: real, es: seq<Event>, i: nat)
    requires limit > 0.0 && SweepsHidden(limit, ttl)
    requires Ordered(es) && i < |es| && es[i].Request?
    ensures
      AnswerAt(limit, ttl, es, i) == Decide(limit, CellAfter(limit, ttl, Requests(es[..i])), es[i].at).1
  {
    assert AnsweredUnswept(limit, ttl, es, i);
    assert (Requests(es[..i]) + [es[i]])[..|Requests(es[..i])|] == Requests(es[..i]);
  }

  /** If sweeps are hidden, dropping one between two all-admitted runs of requests leaves all of them admitted. */
  lemma DroppedSweep(limit: real, ttl: real, first: seq<Event>, tick: real, second: seq<Event>, k: nat)
    requires limit > 0.0 && SweepsHidden(limit, ttl)
    requires Ordered(first + [Sweep(tick)] + second)
    requires forall k :: 0 <= k < |first| ==> first[k].Request? && AnswerAt(limit, ttl, first, k).Admitted?
    requires forall k :: 0 <= k < |second| ==> second[k].Request?
    requires
      var run := first + [Sweep(tick)] + second;
      forall k :: |first| < k < |run| ==> AnswerAt(limit, ttl, run, k).Admitted?
    requires k < |first + second|
    ensures AnswerAt(limit, 60.0, first + second, k).Admitted?
  {
    hide SweepsHidden, Decide, CellAfter, Requests;
    var swept := first + [Sweep(tick)];
    var run, rs := swept + second, first + second;
    if k < |first| {
      assert rs[..k] == first[..k];
      assert AnswerAt(limit, ttl, first, k).Admitted?;
    } else {
      assert run[k + 1] == rs[k];
      assert AnswerAt(limit, ttl, run, k + 1).Admitted?;
      Unswept(limit, ttl, run, k + 1);
      var part := second[..k - |first|];
      assert run[..k + 1] == swept + part;
      RequestsAcross(swept, part);
      RequestsOnly(first);
      RequestsDropSweep(first, tick);
      assert Requests(run[..k + 1]) == rs[..k];
    }
    TtlIsForSweeps(limit, ttl, 60.0, rs[..k]);
  }

  lemma OrderedAcross(first: seq<Event>, tick: real, second: seq<Event>, end: real)
    requires Ordered(first) && forall k :: 0 <= k < |first| ==> When(first[k]) <= tick
    requires Ordered(second) && forall k :: 0 <= k < |second| ==> tick <= When(second[k]) <= end
    requires tick <= end
    ensures Ordered(first + second) && Ordered(first + [Sweep(tick)] + second)
    ensures NotBefore(end, first + second)
  {
  }

  lemma DrainOrdered(limit: real, t: real)
    requires limit >= 1.0
    ensures
      var drain, end := Drain(limit, t), t + Refilling(limit);
      && |drain| == limit.Floor + 1 && drain[0] == Request(t) && drain[limit.Floor] == Request(end)
      && Ordered(drain)
      && forall k :: 0 <= k < |drain| ==> drain[k].Request? && t <= When(drain[k]) <= end
  {
    hide Refilling;
    RefillingEarns(limit);
    BurstAdmitted(limit, 60.0, [], limit.Floor, t);
  }

  lemma ForgottenBetween(limit: real, ttl: real, tick: real)
    requires limit >= 1.0 && tick - Refilling(limit) > ttl
    ensures
      var first, second := Drain(limit, 0.0), Drain(limit, tick);
      var run := first + [Sweep(tick)] + second;
      && (forall k :: 0 <= k < |first| ==> first[k].Request? && AnswerAt(limit, ttl, first, k).Admitted?)
      && (forall k :: |first| < k < |run| ==> run[k].Request? && AnswerAt(limit, ttl, run, k).Admitted?)
  {
    hide AnswerAt, Refilling, Refill, Drain;
    var first := Drain(limit, 0.0);
    var swept := first + [Sweep(tick)];
    DrainAdmitted(limit, ttl, [], 0.0);
    assert [] + first == first;
    assert swept[..|first|] == first;
    DrainAdmitted(limit, ttl, swept, tick);
    assert |swept| == |first| + 1;
  }

  /** With a ttl under a minute, a drained key that is forgotten too early is admitted too often. */
  lemma ShortTtlShows(limit: real, ttl: real)
    requires limit >= 1.0 && ttl < 60.0
    ensures !SweepsHidden(limit, ttl)
  {
    hide AnswerAt, SweepsHidden, Refilling, Drain, Ordered, NotBefore;
    RefillingEarns(limit);
    var d := Refilling(limit);
    var gap := ((if ttl > 0.0 then ttl else 0.0) + 60.0) / 2.0;
    var tick, end := d + gap, d + gap + d;
    var first, second := Drain(limit, 0.0), Drain(limit, tick);
    DrainOrdered(limit, 0.0);
    DrainOrdered(limit, tick);
    OrderedAcross(first, tick, second, end);
    ForgottenBetween(limit, ttl, tick);
    if SweepsHidden(limit, ttl) {
      var rs := first + second;
      forall k | 0 <= k < |rs|
        ensures AnswerAt(limit, 60.0, rs, k).Admitted?
      {
        DroppedSweep(limit, ttl, first, tick, second, k);
      }
      TooManyAdmitted(limit, rs, end, gap);
    }
  }

  lemma TooManyAdmitted(limit: real, rs: seq<Event>, end: real, gap: real)
    requires limit >= 1.0 && 0.0 <= gap < 60.0
    requires Ordered(rs) && NotBefore(end, rs)
    requires |rs| == 2 * (limit.Floor + 1) && rs[0] == Request(0.0) && rs[|rs| - 1] == Request(end)
    requires end == 2.0 * Refilling(limit) + gap
    requires forall k :: 0 <= k < |rs| ==> rs[k].Request?
    ensures exists k :: 0 <= k < |rs| && AnswerAt(limit, 60.0, rs, k).Denied?
  {
    hide AnswerAt, Refilling, Credit, Earned;
    if forall k :: 0 <= k < |rs| ==> AnswerAt(limit, 60.0, rs, k).Admitted? {
      AllAdmitted(limit, 60.0, rs);
      AdmissionsAreSpaced(limit, 60.0, rs, end);
      var times, last := Admissions(limit, 60.0, rs), |rs| - 1;
      assert (last - 0 + 1) as real <= limit + (Credit(limit, times[last]) - Credit(limit, times[0]));
      CreditOfDrains(limit, gap);
    }
  }

  lemma CreditOfDrains(limit: real, gap: real)
    requires limit >= 1.0 && gap < 60.0
    ensures Credit(limit, 0.0) == 0.0
    ensures Credit(limit, 2.0 * Refilling(limit) + gap) < 2.0 * (limit.Floor as real + 1.0 - limit) + limit
  {
    RefillingEarns(limit);
    var r, d := Rate(limit), Refilling(limit);
    assert (60.0 - gap) * r > 0.0;
    assert (2.0 * d + gap) * r == 2.0 * (d * r) + gap * r;
  }
}

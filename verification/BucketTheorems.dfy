/** What one rate-limiter key promises over whole runs of requests and sweeps. */
module BucketTheorems {
  import opened Wrappers
  import opened TokenBucket

  ghost predicate Overfull(limit: real, admitted: seq<real>, k: nat, t: real)
    requires k < |admitted|
  {
    (|admitted| - k + 1) as real > limit + Rate(limit) * (t - admitted[k])
  }

  lemma PrefixOrdered(es: seq<Event>, i: nat)
    requires Ordered(es) && i < |es| && es[i].Request?
    ensures Ordered(es[..i]) && NotBefore(es[i].at, es[..i])
  {
  }

  /** The answer a bucket at this level gives. */
  function AnswerForLevel(limit: real, level: real): Answer
    requires limit > 0.0
  {
    if level < 1.0 then Denied(((1.0 - level) / Rate(limit)).Floor + 1) else Admitted
  }

  lemma AnswerByLevel(limit: real, ttl: real, es: seq<Event>, i: nat)
    requires limit >= 1.0 && ttl >= 60.0
    requires Ordered(es) && i < |es| && es[i].Request?
    ensures
      var level := IdealLevel(limit, Credits(limit, Admissions(limit, ttl, es[..i])), Credit(limit, es[i].at));
      AnswerAt(limit, ttl, es, i) == AnswerForLevel(limit, level)
  {
    PrefixOrdered(es, i);
    LevelIsIdeal(limit, ttl, es[..i], es[i].at);
  }

  lemma RoomIsOverfull(limit: real, admitted: seq<real>, k: nat, t: real)
    requires k < |admitted|
    ensures Room(limit, Credits(limit, admitted), k, Credit(limit, t)) < 1.0 <==> Overfull(limit, admitted, k, t)
  {
    var r := Rate(limit);
    assert r * (t - admitted[k]) == t * r - admitted[k] * r;
  }

  /** A request is denied exactly when admitting it would overfill a window that starts at an admitted one. */
  lemma DeniedExactly(limit: real, ttl: real, es: seq<Event>, i: nat)
    requires limit >= 1.0 && ttl >= 60.0
    requires Ordered(es) && i < |es| && es[i].Request?
    ensures
      var admitted := Admissions(limit, ttl, es[..i]);
      AnswerAt(limit, ttl, es, i).Denied? <==>
        exists k :: 0 <= k < |admitted| && Overfull(limit, admitted, k, es[i].at)
  {
    var admitted, t := Admissions(limit, ttl, es[..i]), es[i].at;
    AnswerByLevel(limit, ttl, es, i);
    forall k | 0 <= k < |admitted|
      ensures Room(limit, Credits(limit, admitted), k, Credit(limit, t)) < 1.0 <==> Overfull(limit, admitted, k, t)
    {
      RoomIsOverfull(limit, admitted, k, t);
    }
  }

  // --- Only admissions matter ---

  function Requests(es: seq<Event>): (rs: seq<Event>)
    ensures forall k :: 0 <= k < |rs| ==> rs[k].Request?
  {
    if es == [] then []
    else
      var rs := Requests(es[..|es| - 1]);
      if es[|es| - 1].Request? then rs + [es[|es| - 1]] else rs
  }

  lemma {:induction false} RequestsNotBefore(t: real, es: seq<Event>)
    requires Ordered(es) && NotBefore(t, es)
    ensures Ordered(Requests(es)) && NotBefore(t, Requests(es))
    decreases es
  {
    if es != [] {
      var n := |es| - 1;
      if es[n].Request? {
        PrefixOrdered(es, n);
        RequestsNotBefore(es[n].at, es[..n]);
      } else {
        RequestsNotBefore(t, es[..n]);
      }
    }
  }

  lemma {:induction false} SameAdmissionsUnswept(limit: real, ttl: real, es: seq<Event>, t: real)
    requires limit >= 1.0 && ttl >= 60.0
    requires Ordered(es) && NotBefore(t, es)
    ensures Admissions(limit, ttl, Requests(es)) == Admissions(limit, ttl, es)
  {
    if es != [] {
      var n := |es| - 1;
      if es[n].Request? {
        PrefixOrdered(es, n);
        SameAdmissionsUnswept(limit, ttl, es[..n], es[n].at);
        RequestsNotBefore(t, es);
        var rs := Requests(es);
        assert rs[..|rs| - 1] == Requests(es[..n]);
        AnswerByLevel(limit, ttl, es, n);
        AnswerByLevel(limit, ttl, rs, |rs| - 1);
      } else {
        SameAdmissionsUnswept(limit, ttl, es[..n], t);
      }
    }
  }

  /** A limiter that forgets idle entries answers every request, Retry-After included, like one that never does. */
  lemma SweepingIsUnobservable(limit: real, ttl: real, es: seq<Event>, i: nat)
    requires limit >= 1.0 && ttl >= 60.0
    requires Ordered(es) && i < |es| && es[i].Request?
    ensures
      var unswept := Requests(es[..i]) + [es[i]];
      AnswerAt(limit, ttl, es, i) == AnswerAt(limit, ttl, unswept, |unswept| - 1)
  {
    PrefixOrdered(es, i);
    SameAdmissionsUnswept(limit, ttl, es[..i], es[i].at);
    RequestsNotBefore(es[i].at, es[..i]);
    var unswept := Requests(es[..i]) + [es[i]];
    assert unswept[..|unswept| - 1] == Requests(es[..i]);
    AnswerByLevel(limit, ttl, es, i);
    AnswerByLevel(limit, ttl, unswept, |unswept| - 1);
  }

  lemma {:induction false} AdmissionsReplay(limit: real, ttl: real, es: seq<Event>, t: real)
    requires limit >= 1.0 && ttl >= 60.0
    requires Ordered(es) && NotBefore(t, es)
    ensures
      var kept := AsRequests(Admissions(limit, ttl, es));
      && Ordered(kept) && NotBefore(t, kept)
      && Admissions(limit, ttl, kept) == Admissions(limit, ttl, es)
  {
    hide AnswerAt, AnswerForLevel;
    if es != [] {
      var n := |es| - 1;
      if es[n].Request? {
        PrefixOrdered(es, n);
        AdmissionsReplay(limit, ttl, es[..n], es[n].at);
        if AnswerAt(limit, ttl, es, n).Admitted? {
          var kept := AsRequests(Admissions(limit, ttl, es));
          assert kept[..|kept| - 1] == AsRequests(Admissions(limit, ttl, es[..n]));
          AnswerByLevel(limit, ttl, es, n);
          AnswerByLevel(limit, ttl, kept, |kept| - 1);
        }
      } else {
        AdmissionsReplay(limit, ttl, es[..n], t);
      }
    }
  }

  function AsRequests(times: seq<real>): seq<Event> {
    seq(|times|, k requires 0 <= k < |times| => Request(times[k]))
  }

  /** Denied requests leave no trace: the answer is the one after the admitted requests alone. */
  lemma DenialsAreForgotten(limit: real, ttl: real, es: seq<Event>, i: nat)
    requires limit >= 1.0 && ttl >= 60.0
    requires Ordered(es) && i < |es| && es[i].Request?
    ensures
      var kept := AsRequests(Admissions(limit, ttl, es[..i])) + [es[i]];
      AnswerAt(limit, ttl, es, i) == AnswerAt(limit, ttl, kept, |kept| - 1)
  {
    PrefixOrdered(es, i);
    AdmissionsReplay(limit, ttl, es[..i], es[i].at);
    var kept := AsRequests(Admissions(limit, ttl, es[..i])) + [es[i]];
    assert kept[..|kept| - 1] == AsRequests(Admissions(limit, ttl, es[..i]));
    AnswerByLevel(limit, ttl, es, i);
    AnswerByLevel(limit, ttl, kept, |kept| - 1);
  }

  // --- Window bound ---

  /** How many of the times lie in the closed interval from start to end. */
  function CountIn(times: seq<real>, start: real, end: real): nat {
    if times == [] then 0
    else
      var n := |times| - 1;
      CountIn(times[..n], start, end) + if start <= times[n] <= end then 1 else 0
  }

  lemma {:induction false} CountAfterPrefix(times: seq<real>, start: real, end: real, i: nat)
    requires i <= |times| && forall k :: 0 <= k < i ==> times[k] < start
    ensures CountIn(times, start, end) <= |times| - i
  {
    if times != [] {
      var n := |times| - 1;
      CountAfterPrefix(times[..n], start, end, if i <= n then i else n);
    }
  }

  ghost predicate Spaced(limit: real, times: seq<real>) {
    && (forall i, j :: 0 <= i <= j < |times| ==> times[i] <= times[j])
    && (forall i, j :: 0 <= i <= j < |times| ==>
          (j - i + 1) as real <= limit + (Credit(limit, times[j]) - Credit(limit, times[i])))
  }

  lemma {:induction false} SpacedBound(limit: real, times: seq<real>, start: real, end: real)
    requires limit >= 1.0 && start <= end && Spaced(limit, times)
    ensures CountIn(times, start, end) as real <= limit + (Credit(limit, end) - Credit(limit, start))
  {
    CreditGrows(limit, start, end);
    if times != [] {
      var n := |times| - 1;
      if start <= times[n] <= end {
        var i := 0;
        while times[i] < start
          invariant i <= n && forall k :: 0 <= k < i ==> times[k] < start
          decreases n - i
        {
          i := i + 1;
        }
        CountAfterPrefix(times, start, end, i);
        assert (n - i + 1) as real <= limit + (Credit(limit, times[n]) - Credit(limit, times[i]));
        CreditGrows(limit, start, times[i]);
        CreditGrows(limit, times[n], end);
      } else {
        SpacedBound(limit, times[..n], start, end);
      }
    }
  }

  lemma SpacedExtends(limit: real, times: seq<real>, at: real)
    requires limit >= 1.0 && Spaced(limit, times)
    requires forall k :: 0 <= k < |times| ==> times[k] <= at
    requires IdealLevel(limit, Credits(limit, times), Credit(limit, at)) >= 1.0
    ensures Spaced(limit, times + [at])
  {
    var n, more := |times|, times + [at];
    var credits := Credits(limit, times);
    var now := Credit(limit, at);
    forall i | 0 <= i <= n
      ensures (n - i + 1) as real <= limit + (now - Credit(limit, more[i]))
    {
      if i < n {
        assert 1.0 <= Room(limit, credits, i, now);
      }
    }
    forall i, j | 0 <= i <= j < |more|
      ensures (j - i + 1) as real <= limit + (Credit(limit, more[j]) - Credit(limit, more[i]))
    {
      if j < n {
        assert more[i] == times[i] && more[j] == times[j];
      }
    }
  }

  lemma {:induction false} AdmissionsAreSpaced(limit: real, ttl: real, es: seq<Event>, t: real)
    requires limit >= 1.0 && ttl >= 60.0
    requires Ordered(es) && NotBefore(t, es)
    ensures
      var admitted := Admissions(limit, ttl, es);
      Spaced(limit, admitted) && forall k :: 0 <= k < |admitted| ==> admitted[k] <= t
  {
    if es != [] {
      var n := |es| - 1;
      if es[n].Request? {
        var at := es[n].at;
        PrefixOrdered(es, n);
        AdmissionsAreSpaced(limit, ttl, es[..n], at);
        AnswerByLevel(limit, ttl, es, n);
        if AnswerAt(limit, ttl, es, n).Admitted? {
          SpacedExtends(limit, Admissions(limit, ttl, es[..n]), at);
        }
      } else {
        AdmissionsAreSpaced(limit, ttl, es[..n], t);
      }
    }
  }

  /** In every interval, whatever the run, at most limit + rate * length requests are admitted. */
  lemma WindowBound(limit: real, ttl: real, es: seq<Event>, t: real, start: real, end: real)
    requires limit >= 1.0 && ttl >= 60.0
    requires Ordered(es) && NotBefore(t, es) && start <= end
    ensures CountIn(Admissions(limit, ttl, es), start, end) as real <= limit + Rate(limit) * (end - start)
  {
    AdmissionsAreSpaced(limit, ttl, es, t);
    SpacedBound(limit, Admissions(limit, ttl, es), start, end);
    var r := Rate(limit);
    assert r * (end - start) == end * r - start * r;
  }

  // --- Retry-After ---

  lemma {:induction false} NothingAdmittedBetween(limit: real, ttl: real, es: seq<Event>, i: nat, j: nat)
    requires limit > 0.0 && i <= j <= |es|
    requires forall k :: i <= k < j && es[k].Request? ==> AnswerAt(limit, ttl, es, k).Denied?
    ensures Admissions(limit, ttl, es[..j]) == Admissions(limit, ttl, es[..i])
  {
    if i < j {
      NothingAdmittedBetween(limit, ttl, es, i, j - 1);
      assert es[..j][..j - 1] == es[..j - 1];
    }
  }

  lemma WaitEarns(limit: real, level: real, wait: real)
    requires limit >= 1.0 > level
    ensures var k := ((1.0 - level) / Rate(limit)).Floor + 1;
      && k >= 1
      && (wait >= k as real ==> level + wait * Rate(limit) > 1.0)
      && (wait < (k - 1) as real ==> level + wait * Rate(limit) < 1.0)
  {
    var r := Rate(limit);
    var q := (1.0 - level) / r;
    assert q * r == 1.0 - level;
    assert q > 0.0;
    if wait > q {
      assert (wait - q) * r > 0.0;
    }
    if wait < q {
      assert (q - wait) * r > 0.0;
    }
  }

  function Earned(limit: real, wait: real): real {
    wait * Rate(limit)
  }

  lemma LevelAfterWaiting(limit: real, admitted: seq<real>, t: real, later: real)
    requires limit >= 1.0 && t <= later
    ensures IdealLevel(limit, admitted, Credit(limit, later)) ==
            Min(limit, IdealLevel(limit, admitted, Credit(limit, t)) + Earned(limit, later - t))
  {
    var r := Rate(limit);
    CreditGrows(limit, t, later);
    IdealLater(limit, admitted, Credit(limit, t), Credit(limit, later));
    assert (later - t) * r == later * r - t * r;
  }

  lemma WaitingAnswers(limit: real, level: real, wait: real)
    requires limit >= 1.0 && AnswerForLevel(limit, level).Denied?
    ensures
      var k := AnswerForLevel(limit, level).retryAfter;
      var answer := AnswerForLevel(limit, Min(limit, level + Earned(limit, wait)));
      && k >= 1
      && (wait >= k as real ==> answer.Admitted?)
      && (wait < (k - 1) as real ==> answer.Denied?)
  {
    WaitEarns(limit, level, wait);
  }

  /** After a denial with value k and no admission since: k seconds later is soon enough, less than k-1 is not. */
  lemma RetryAfterIsTight(limit: real, ttl: real, es: seq<Event>, i: nat, j: nat)
    requires limit >= 1.0 && ttl >= 60.0
    requires Ordered(es) && i < j < |es| && es[i].Request? && es[j].Request?
    requires forall k :: i <= k < j && es[k].Request? ==> AnswerAt(limit, ttl, es, k).Denied?
    ensures
      var retryAfter := AnswerAt(limit, ttl, es, i).retryAfter;
      && retryAfter >= 1
      && (es[j].at >= es[i].at + retryAfter as real ==> AnswerAt(limit, ttl, es, j).Admitted?)
      && (es[j].at < es[i].at + (retryAfter - 1) as real ==> AnswerAt(limit, ttl, es, j).Denied?)
  {
    hide AnswerAt, AnswerForLevel, Credit, Earned;
    NothingAdmittedBetween(limit, ttl, es, i, j);
    AnswerByLevel(limit, ttl, es, i);
    AnswerByLevel(limit, ttl, es, j);
    var admitted := Credits(limit, Admissions(limit, ttl, es[..i]));
    LevelAfterWaiting(limit, admitted, es[i].at, es[j].at);
    var level := IdealLevel(limit, admitted, Credit(limit, es[i].at));
    assert AnswerAt(limit, ttl, es, i) == AnswerForLevel(limit, level);
    var wait := es[j].at - es[i].at;
    assert AnswerAt(limit, ttl, es, j) == AnswerForLevel(limit, Min(limit, level + Earned(limit, wait)));
    WaitingAnswers(limit, level, wait);
  }
}

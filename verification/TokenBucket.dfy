/** The token bucket of one rate-limiter key, on values. Time is in seconds. */
module TokenBucket {
  import opened Wrappers

  datatype Bucket = Bucket(tokens: real, lastCheck: real)

  datatype Answer = Admitted | Denied(retryAfter: int)

  /** What can happen to one key: a request, or a sweep that compares the entry's age at `tick` with the ttl. */
  datatype Event = Request(at: real) | Sweep(tick: real)

  function Rate(limit: real): real {
    limit / 60.0
  }

  function Refill(limit: real, b: Bucket, now: real): real {
    var tokens := b.tokens + (now - b.lastCheck) * Rate(limit);
    if tokens > limit then limit else tokens
  }

  function Decide(limit: real, cell: Option<Bucket>, now: real): (Bucket, Answer)
    requires limit > 0.0
  {
    match cell
    case None => (Bucket(limit - 1.0, now), Admitted)
    case Some(b) =>
      var tokens := Refill(limit, b, now);
      if tokens < 1.0 then
        (Bucket(tokens, now), Denied(((1.0 - tokens) / Rate(limit)).Floor + 1))
      else
        (Bucket(tokens - 1.0, now), Admitted)
  }

  function SweepCell(ttl: real, cell: Option<Bucket>, tick: real): Option<Bucket> {
    if cell.Some? && tick - cell.value.lastCheck > ttl then None else cell
  }

  function CellAfter(limit: real, ttl: real, es: seq<Event>): Option<Bucket>
    requires limit > 0.0
  {
    if es == [] then None
    else
      var before := CellAfter(limit, ttl, es[..|es| - 1]);
      match es[|es| - 1]
      case Request(at) => Some(Decide(limit, before, at).0)
      case Sweep(tick) => SweepCell(ttl, before, tick)
  }

  /** The answer to the request at position i of the run. */
  function AnswerAt(limit: real, ttl: real, es: seq<Event>, i: nat): Answer
    requires limit > 0.0 && i < |es| && es[i].Request?
  {
    Decide(limit, CellAfter(limit, ttl, es[..i]), es[i].at).1
  }

  /** The times of the admitted requests, in order. */
  function Admissions(limit: real, ttl: real, es: seq<Event>): seq<real>
    requires limit > 0.0
  {
    if es == [] then []
    else
      var n := |es| - 1;
      var before := Admissions(limit, ttl, es[..n]);
      if es[n].Request? && AnswerAt(limit, ttl, es, n).Admitted? then before + [es[n].at] else before
  }

  function When(e: Event): real {
    match e
    case Request(at) => at
    case Sweep(tick) => tick
  }

  /** The clock never runs backwards for requests; a sweep may use a tick that is already old. */
  ghost predicate Ordered(es: seq<Event>) {
    forall i, j :: 0 <= i < j < |es| && es[j].Request? ==> When(es[i]) <= When(es[j])
  }

  ghost predicate NotBefore(t: real, es: seq<Event>) {
    forall i :: 0 <= i < |es| ==> When(es[i]) <= t
  }

  // --- The level a bucket would have, and its closed form over admissions ---

  /** Tokens a never-full bucket earns from time 0 to t: the clock on which all bounds below are linear. */
  function Credit(limit: real, t: real): real {
    t * Rate(limit)
  }

  function Credits(limit: real, times: seq<real>): (cs: seq<real>)
    ensures |cs| == |times|
    ensures forall k :: 0 <= k < |cs| ==> cs[k] == Credit(limit, times[k])
  {
    seq(|times|, k requires 0 <= k < |times| => Credit(limit, times[k]))
  }

  function Min(a: real, b: real): real {
    if a > b then b else a
  }

  function Level(limit: real, cell: Option<Bucket>, t: real): real {
    match cell
    case None => limit
    case Some(b) => Refill(limit, b, t)
  }

  /** Room left in the window from admission k to now; `admitted` and `now` are in credits. */
  function Room(limit: real, admitted: seq<real>, k: nat, now: real): real
    requires k < |admitted|
  {
    limit + (now - admitted[k]) - (|admitted| - k) as real
  }

  /** The least room over all windows that start at an admission, never more than the limit. */
  function IdealLevel(limit: real, admitted: seq<real>, now: real): (level: real)
    ensures level <= limit
    ensures forall k :: 0 <= k < |admitted| ==> level <= Room(limit, admitted, k, now)
    ensures level == limit || exists k :: 0 <= k < |admitted| && level == Room(limit, admitted, k, now)
  {
    if admitted == [] then limit
    else
      var rest := IdealLevel(limit, admitted[1..], now);
      assert forall k :: 0 < k < |admitted| ==>
        Room(limit, admitted, k, now) == Room(limit, admitted[1..], k - 1, now);
      assert rest == limit || exists k :: 0 <= k < |admitted| && rest == Room(limit, admitted, k, now) by {
        if rest != limit {
          var k :| 0 <= k < |admitted| - 1 && rest == Room(limit, admitted[1..], k, now);
          assert rest == Room(limit, admitted, k + 1, now);
        }
      }
      Min(Room(limit, admitted, 0, now), rest)
  }

  lemma {:induction false} IdealLater(limit: real, admitted: seq<real>, now: real, later: real)
    requires now <= later
    ensures IdealLevel(limit, admitted, later) == Min(limit, IdealLevel(limit, admitted, now) + (later - now))
  {
    if admitted != [] {
      IdealLater(limit, admitted[1..], now, later);
    }
  }

  lemma {:induction false} IdealAdmit(limit: real, admitted: seq<real>, now: real)
    ensures IdealLevel(limit, admitted + [now], now) == IdealLevel(limit, admitted, now) - 1.0
  {
    var more := admitted + [now];
    if admitted == [] {
      assert more[1..] == [];
      assert Room(limit, more, 0, now) == limit - 1.0;
    } else {
      assert more[1..] == admitted[1..] + [now];
      IdealAdmit(limit, admitted[1..], now);
    }
  }

  lemma CreditGrows(limit: real, t: real, later: real)
    requires limit > 0.0 && t <= later
    ensures Credit(limit, t) <= Credit(limit, later)
    ensures later - t >= 60.0 ==> Credit(limit, later) - Credit(limit, t) >= limit
  {
    var r := Rate(limit);
    var d := later - t;
    assert d * r >= 0.0;
    if d >= 60.0 {
      assert (d - 60.0) * r >= 0.0;
    }
    assert d * r == later * r - t * r;
  }

  lemma RefillInCredits(limit: real, b: Bucket, t: real)
    ensures Refill(limit, b, t) == Min(limit, b.tokens + (Credit(limit, t) - Credit(limit, b.lastCheck)))
  {
    var r := Rate(limit);
    assert (t - b.lastCheck) * r == t * r - b.lastCheck * r;
  }

  /** Whatever sweeps and denials happened, the bucket's level is a function of the admissions alone. */
  lemma {:induction false} LevelIsIdeal(limit: real, ttl: real, es: seq<Event>, t: real)
    requires limit >= 1.0 && ttl >= 60.0
    requires Ordered(es) && NotBefore(t, es)
    ensures
      var cell := CellAfter(limit, ttl, es);
      && Level(limit, cell, t) == IdealLevel(limit, Credits(limit, Admissions(limit, ttl, es)), Credit(limit, t))
      && (cell.Some? ==> 0.0 <= cell.value.tokens <= limit && cell.value.lastCheck <= t)
  {
    if es != [] {
      var n := |es| - 1;
      match es[n]
      case Request(at) => {
        LevelIsIdeal(limit, ttl, es[..n], at);
        LevelAfterRequest(limit, ttl, es, t);
      }
      case Sweep(tick) => {
        LevelIsIdeal(limit, ttl, es[..n], t);
        var before := CellAfter(limit, ttl, es[..n]);
        if before.Some? && tick - before.value.lastCheck > ttl {
          CreditGrows(limit, before.value.lastCheck, t);
          RefillInCredits(limit, before.value, t);
        }
      }
    }
  }

  lemma LevelAfterRequest(limit: real, ttl: real, es: seq<Event>, t: real)
    requires limit >= 1.0
    requires es != [] && es[|es| - 1].Request? && es[|es| - 1].at <= t
    requires
      var n, at := |es| - 1, es[|es| - 1].at;
      var cell := CellAfter(limit, ttl, es[..n]);
      && Level(limit, cell, at) == IdealLevel(limit, Credits(limit, Admissions(limit, ttl, es[..n])), Credit(limit, at))
      && (cell.Some? ==> 0.0 <= cell.value.tokens <= limit && cell.value.lastCheck <= at)
    ensures
      var cell := CellAfter(limit, ttl, es);
      && Level(limit, cell, t) == IdealLevel(limit, Credits(limit, Admissions(limit, ttl, es)), Credit(limit, t))
      && (cell.Some? ==> 0.0 <= cell.value.tokens <= limit && cell.value.lastCheck <= t)
  {
    hide Credit, Refill, Rate, IdealLevel;
    var n, at := |es| - 1, es[|es| - 1].at;
    var before := CellAfter(limit, ttl, es[..n]);
    var after := CellAfter(limit, ttl, es).value;
    var was := Credits(limit, Admissions(limit, ttl, es[..n]));
    var admitted := Credits(limit, Admissions(limit, ttl, es));
    if before.Some? {
      RefillInCredits(limit, before.value, at);
      CreditGrows(limit, before.value.lastCheck, at);
    }
    assert after.lastCheck == at && 0.0 <= after.tokens <= limit;
    assert after.tokens == IdealLevel(limit, admitted, Credit(limit, at)) by {
      if AnswerAt(limit, ttl, es, n).Admitted? {
        assert admitted == was + [Credit(limit, at)];
        IdealAdmit(limit, was, Credit(limit, at));
      }
    }
    CreditGrows(limit, at, t);
    IdealLater(limit, admitted, Credit(limit, at), Credit(limit, t));
    RefillInCredits(limit, after, t);
  }
}

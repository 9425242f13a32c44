/** The limiter itself: one lazily refilled bucket per ip and path, and the sweep that forgets idle entries. */
module RateLimiter {
  import opened Wrappers
  import opened TokenBucket
  import opened BucketTheorems

  function Key(ip: string, path: string): string {
    ip + "|" + path
  }

  /** A configuration as backend/main.go builds it: positive limits, and paths free of the key separator. */
  ghost predicate ValidLimits(limits: map<string, real>) {
    forall path :: path in limits ==> limits[path] > 0.0 && '|' !in path
  }

  function Lookup(buckets: map<string, Bucket>, key: string): Option<Bucket> {
    if key in buckets then Some(buckets[key]) else None
  }

  class RateLimitEntry {
    var tokens: real
    var lastCheck: real

    constructor (tokens: real, lastCheck: real)
      ensures this.tokens == tokens && this.lastCheck == lastCheck
    {
      this.tokens, this.lastCheck := tokens, lastCheck;
    }
  }

  class Limiter {
    const limits: map<string, real>
    const ttl: real
    var entries: map<string, RateLimitEntry>

    ghost predicate Valid()
      reads this
    {
      && ValidLimits(limits)
      && forall k, l :: k in entries && l in entries && k != l ==> entries[k] != entries[l]
    }

    ghost function Buckets(): map<string, Bucket>
      reads this, entries.Values
    {
      map k | k in entries :: Bucket(entries[k].tokens, entries[k].lastCheck)
    }

    constructor (limits: map<string, real>, ttl: real)
      requires ValidLimits(limits)
      ensures Valid() && Buckets() == map[]
      ensures this.limits == limits && this.ttl == ttl
    {
      this.limits, this.ttl, this.entries := limits, ttl, map[];
    }

    method Allow(ip: string, path: string, now: real) returns (allowed: bool, retryAfter: int)
      requires Valid()
      modifies this, entries.Values
      ensures Valid() && fresh(entries.Values - old(entries.Values))
      ensures path !in limits ==> allowed && Buckets() == old(Buckets())
      ensures path in limits ==>
        var decision := Decide(limits[path], Lookup(old(Buckets()), Key(ip, path)), now);
        && Buckets() == old(Buckets())[Key(ip, path) := decision.0]
        && decision.1 == if allowed then Admitted else Denied(retryAfter)
    {
      if path !in limits {
        return true, 0;
      }
      var limit, key := limits[path], Key(ip, path);
      hide Buckets, Key;
      var rate := limit / 60.0;
      assert rate == Rate(limit);
      if key !in entries {
        var entry := new RateLimitEntry(limit - 1.0, now);
        entries := entries[key := entry];
        OneBucketChanged(key);
        return true, 0;
      }
      var e := entries[key];
      e.tokens := e.tokens + (now - e.lastCheck) * rate;
      if e.tokens > limit {
        e.tokens := limit;
      }
      e.lastCheck := now;
      assert e.tokens == Refill(limit, old(Bucket(e.tokens, e.lastCheck)), now);
      hide Refill, Rate;
      allowed := e.tokens >= 1.0;
      if allowed {
        e.tokens, retryAfter := e.tokens - 1.0, 0;
      } else {
        retryAfter := ((1.0 - e.tokens) / rate).Floor + 1;
      }
      OneBucketChanged(key);
    }

    twostate lemma OneBucketChanged(key: string)
      requires key in entries && entries.Keys == old(entries).Keys + {key}
      requires forall k :: k in entries && k != key ==> entries[k] == old(entries)[k] && unchanged(entries[k])
      ensures Buckets() == old(Buckets())[key := Bucket(entries[key].tokens, entries[key].lastCheck)]
    {
    }

    /** One tick of the background sweep: the keys are visited in no particular order. */
    method Cleanup(now: real)
      requires Valid()
      modifies this
      ensures Valid() && entries.Values <= old(entries.Values)
      ensures forall k :: Lookup(Buckets(), k) == SweepCell(ttl, Lookup(old(Buckets()), k), now)
    {
      var pending := entries.Keys;
      while pending != {}
        invariant Valid()
        invariant forall k :: k in entries ==> k in old(entries) && entries[k] == old(entries[k])
        invariant forall k :: k in pending ==> k in entries
        invariant forall k :: k in old(entries) && k !in pending ==>
          (k in entries <==> now - old(entries[k].lastCheck) <= ttl)
      {
        var key :| key in pending;
        pending := pending - {key};
        if now - entries[key].lastCheck > ttl {
          entries := entries - {key};
        }
      }
      assert entries.Values <= old(entries.Values) by {
        forall e | e in entries.Values
          ensures e in old(entries.Values)
        {
          var k :| k in entries && entries[k] == e;
          assert old(entries[k]) == e;
        }
      }
    }
  }

  // --- Runs of the whole limiter ---

  datatype Event = Call(ip: string, path: string, at: real) | SweepKey(key: string, tick: real)

  function BucketsAfter(limits: map<string, real>, ttl: real, es: seq<Event>): map<string, Bucket>
    requires ValidLimits(limits)
  {
    if es == [] then map[]
    else
      var n := |es| - 1;
      var before := BucketsAfter(limits, ttl, es[..n]);
      match es[n]
      case Call(ip, path, at) =>
        if path in limits then
          before[Key(ip, path) := Decide(limits[path], Lookup(before, Key(ip, path)), at).0]
        else before
      case SweepKey(key, tick) =>
        if SweepCell(ttl, Lookup(before, key), tick).Some? then before else before - {key}
  }

  /** The answer to the call at position i; paths without a limit are not limited. */
  function CallAnswer(limits: map<string, real>, ttl: real, es: seq<Event>, i: nat): Answer
    requires ValidLimits(limits) && i < |es| && es[i].Call?
  {
    var Call(ip, path, at) := es[i];
    if path in limits then
      Decide(limits[path], Lookup(BucketsAfter(limits, ttl, es[..i]), Key(ip, path)), at).1
    else Admitted
  }

  function AdmittedTimes(limits: map<string, real>, ttl: real, es: seq<Event>, ip: string, path: string): seq<real>
    requires ValidLimits(limits)
  {
    if es == [] then []
    else
      var n := |es| - 1;
      var before := AdmittedTimes(limits, ttl, es[..n], ip, path);
      if es[n].Call? && es[n].ip == ip && es[n].path == path && CallAnswer(limits, ttl, es, n).Admitted?
      then before + [es[n].at]
      else before
  }

  /** What the run looks like to the key of one ip and path. */
  function Project(es: seq<Event>, ip: string, path: string): seq<TokenBucket.Event> {
    if es == [] then []
    else
      var n := |es| - 1;
      var before := Project(es[..n], ip, path);
      match es[n]
      case Call(ip', path', at) => if ip' == ip && path' == path then before + [Request(at)] else before
      case SweepKey(key, tick) => if key == Key(ip, path) then before + [Sweep(tick)] else before
  }

  function At(e: Event): real {
    match e
    case Call(_, _, at) => at
    case SweepKey(_, tick) => tick
  }

  ghost predicate Timely(es: seq<Event>) {
    forall i, j :: 0 <= i < j < |es| && es[j].Call? ==> At(es[i]) <= At(es[j])
  }

  lemma KeyIsInjective(ip: string, path: string, ip': string, path': string)
    requires '|' !in path && '|' !in path'
    requires Key(ip, path) == Key(ip', path')
    ensures ip == ip' && path == path'
  {
    var key := Key(ip, path);
    assert key[|ip|] == '|' && key[|ip'|] == '|';
    assert |ip| == |ip'|;
    assert key[..|ip|] == ip && key[..|ip'|] == ip';
    assert key[|ip| + 1..] == path && key[|ip'| + 1..] == path';
  }

  /** Keys do not interfere: the limiter restricted to one ip and path is that key's bucket on its own events. */
  lemma {:induction false} KeysAreIndependent(
    limits: map<string, real>, ttl: real, es: seq<Event>, ip: string, path: string)
    requires ValidLimits(limits) && path in limits
    ensures
      var own := Project(es, ip, path);
      && Lookup(BucketsAfter(limits, ttl, es), Key(ip, path)) == CellAfter(limits[path], ttl, own)
      && AdmittedTimes(limits, ttl, es, ip, path) == Admissions(limits[path], ttl, own)
  {
    hide Decide;
    if es != [] {
      var n := |es| - 1;
      KeysAreIndependent(limits, ttl, es[..n], ip, path);
      var own, before := Project(es, ip, path), Project(es[..n], ip, path);
      if own != before {
        assert own[..|own| - 1] == before;
      }
      if es[n].Call? && es[n].path in limits && Key(es[n].ip, es[n].path) == Key(ip, path) {
        KeyIsInjective(es[n].ip, es[n].path, ip, path);
      }
    }
  }

  lemma {:induction false} ProjectKeepsOrder(es: seq<Event>, ip: string, path: string, t: real)
    requires Timely(es) && forall i :: 0 <= i < |es| ==> At(es[i]) <= t
    ensures Ordered(Project(es, ip, path)) && NotBefore(t, Project(es, ip, path))
    decreases es
  {
    if es != [] {
      var n := |es| - 1;
      if es[n].Call? {
        ProjectKeepsOrder(es[..n], ip, path, At(es[n]));
      } else {
        ProjectKeepsOrder(es[..n], ip, path, t);
      }
    }
  }

  /** The limiter's promise: whatever else it serves and sweeps, no interval admits more than limit + rate * length. */
  lemma AtMostTheLimit(
    limits: map<string, real>, ttl: real, es: seq<Event>, ip: string, path: string, start: real, end: real)
    requires ValidLimits(limits) && path in limits && limits[path] >= 1.0 && ttl >= 60.0
    requires Timely(es) && start <= end
    ensures CountIn(AdmittedTimes(limits, ttl, es, ip, path), start, end) as real <=
            limits[path] + Rate(limits[path]) * (end - start)
  {
    hide Rate, Admissions, AdmittedTimes, CountIn;
    var t := Latest(es);
    ProjectKeepsOrder(es, ip, path, t);
    KeysAreIndependent(limits, ttl, es, ip, path);
    WindowBound(limits[path], ttl, Project(es, ip, path), t, start, end);
  }

  ghost function Latest(es: seq<Event>): (t: real)
    ensures forall i :: 0 <= i < |es| ==> At(es[i]) <= t
  {
    if es == [] then 0.0
    else
      var before := Latest(es[..|es| - 1]);
      if At(es[|es| - 1]) > before then At(es[|es| - 1]) else before
  }

  /**
   * A call is answered like the last request of its own key's run, so every bucket theorem is one about the limiter.
   */
  lemma CallsAnsweredByOwnKey(limits: map<string, real>, ttl: real, es: seq<Event>, i: nat)
    requires ValidLimits(limits) && Timely(es) && i < |es| && es[i].Call? && es[i].path in limits
    ensures
      var own := Project(es[..i], es[i].ip, es[i].path);
      && Ordered(own + [Request(es[i].at)])
      && CallAnswer(limits, ttl, es, i) == AnswerAt(limits[es[i].path], ttl, own + [Request(es[i].at)], |own|)
  {
    var Call(ip, path, at) := es[i];
    var own := Project(es[..i], ip, path);
    KeysAreIndependent(limits, ttl, es[..i], ip, path);
    ProjectKeepsOrder(es[..i], ip, path, at);
    assert (own + [Request(at)])[..|own|] == own;
  }
}

/**
 The fixed-window request quota of one access link. Times are microseconds; a
 rejected request raises, so its increment is rolled back.
 */
module RateLimit {
  import opened Common

  const SECOND := 1_000_000

  /** The two quota columns: both empty, or a start and a positive count. */
  datatype Quota = Quota(startedAt: Option<Time>, count: nat)

  datatype Limits = Limits(requests: nat, windowSeconds: nat)

  /** A request at some time; the shared cache may reject it although the database would not. */
  datatype Attempt = Attempt(at: Time, cacheAllows: bool)

  predicate QuotaOk(q: Quota) {
    q.startedAt.None? <==> q.count == 0
  }

  function Window(l: Limits): nat {
    l.windowSeconds * SECOND
  }

  predicate WindowExpired(q: Quota, now: Time, l: Limits) {
    q.startedAt.None? || q.startedAt.value <= now - Window(l)
  }

  function Incremented(q: Quota, now: Time, l: Limits): Quota {
    if WindowExpired(q, now, l) then Quota(Some(now), 1) else Quota(q.startedAt, q.count + 1)
  }

  predicate Admits(q: Quota, a: Attempt, l: Limits) {
    Incremented(q, a.at, l).count <= l.requests && a.cacheAllows
  }

  /** The committed quota: a rejected request leaves it as it was. */
  function Committed(q: Quota, a: Attempt, l: Limits): Quota {
    if Admits(q, a, l) then Incremented(q, a.at, l) else q
  }

  function Ceil(microseconds: int): int {
    (microseconds + SECOND - 1) / SECOND
  }

  /** The Retry-After a database rejection answers. */
  function RetryAfter(q: Quota, now: Time, l: Limits): int
    requires q.startedAt.Some?
  {
    Max(1, Ceil(q.startedAt.value + Window(l) - now))
  }

  datatype Verdict = Admitted | RetryIn(seconds: int)

  class LinkQuota {
    var startedAt: Option<Time>
    var count: nat

    constructor ()
      ensures Columns() == Quota(None, 0)
    {
      startedAt, count := None, 0;
    }

    function Columns(): Quota
      reads this
    {
      Quota(startedAt, count)
    }

    /** Increments the window and keeps the increment only if both limits admit the request. */
    method Enforce(a: Attempt, l: Limits) returns (verdict: Verdict)
      requires QuotaOk(Columns()) && l.requests >= 1
      modifies this
      ensures Columns() == Committed(old(Columns()), a, l)
      ensures verdict == Admitted <==> Admits(old(Columns()), a, l)
      ensures verdict != Admitted ==>
                verdict == RetryIn(if Incremented(old(Columns()), a.at, l).count > l.requests && old(startedAt).Some?
                                   then RetryAfter(old(Columns()), a.at, l) else l.windowSeconds)
    {
      var wasStarted, wasCount := startedAt, count;
      if startedAt.None? || startedAt.value <= a.at - l.windowSeconds * SECOND {
        startedAt, count := Some(a.at), 1;
      } else {
        count := count + 1;
      }
      if count > l.requests {
        verdict := RetryIn(Max(1, Ceil(startedAt.value + l.windowSeconds * SECOND - a.at)));
        startedAt, count := wasStarted, wasCount;
        return;
      }
      if !a.cacheAllows {
        startedAt, count := wasStarted, wasCount;
        return RetryIn(l.windowSeconds);
      }
      verdict := Admitted;
    }
  }

  // ------------------------------------------------------------------ traces

  predicate InOrder(trace: seq<Attempt>) {
    forall i, j :: 0 <= i < j < |trace| ==> trace[i].at <= trace[j].at
  }

  function After(trace: seq<Attempt>, l: Limits): Quota
    decreases |trace|
  {
    if trace == [] then Quota(None, 0)
    else Committed(After(trace[..|trace| - 1], l), trace[|trace| - 1], l)
  }

  /** How many requests with a time in [low, high] were admitted. */
  function AdmittedIn(trace: seq<Attempt>, l: Limits, low: Time, high: Time): nat
    decreases |trace|
  {
    if trace == [] then 0
    else
      var n := |trace| - 1;
      AdmittedIn(trace[..n], l, low, high)
      + if Admits(After(trace[..n], l), trace[n], l) && low <= trace[n].at <= high then 1 else 0
  }

  /** The committed count never exceeds the limit, and the columns keep their check constraint. */
  lemma {:induction false} CountWithinLimit(trace: seq<Attempt>, l: Limits)
    ensures QuotaOk(After(trace, l)) && After(trace, l).count <= l.requests
    decreases |trace|
  {
    if trace != [] {
      CountWithinLimit(trace[..|trace| - 1], l);
    }
  }

  lemma {:induction false} StartedBefore(trace: seq<Attempt>, l: Limits, now: Time)
    requires forall a :: a in trace ==> a.at <= now
    ensures After(trace, l).startedAt.Some? ==> After(trace, l).startedAt.value <= now
    decreases |trace|
  {
    if trace != [] {
      StartedBefore(trace[..|trace| - 1], l, now);
    }
  }

  /**
   What the open window says about the interval [low, low + window]: requests of an earlier window can only be
   counted if the open one began after low, and then they come from one window.
   */
  lemma {:induction false} CountedByWindow(trace: seq<Attempt>, l: Limits, low: Time)
    requires InOrder(trace) && l.windowSeconds >= 1
    ensures var q := After(trace, l);
            var n := AdmittedIn(trace, l, low, low + Window(l));
            && QuotaOk(q) && q.count <= l.requests
            && n <= 2 * l.requests
            && (q.startedAt.None? ==> n == 0)
            && (q.startedAt.Some? ==>
                  && (n > 0 ==> q.startedAt.value + Window(l) > low)
                  && (q.startedAt.value <= low ==> n <= q.count)
                  && (low < q.startedAt.value <= low + Window(l) ==> n <= l.requests + q.count))
    decreases |trace|
  {
    if trace != [] {
      var n := |trace| - 1;
      CountedByWindow(trace[..n], l, low);
      StartedBefore(trace[..n], l, trace[n].at);
    }
  }

  /** Any interval as long as the window admits at most twice the limit, however the requests are spread. */
  lemma AtMostTwiceTheLimit(trace: seq<Attempt>, l: Limits, low: Time)
    requires InOrder(trace) && l.windowSeconds >= 1
    ensures AdmittedIn(trace, l, low, low + Window(l)) <= 2 * l.requests
  {
    CountedByWindow(trace, l, low);
  }

  // ------------------------------------------------------------ it is reached

  function Burst(at: Time, n: nat): (trace: seq<Attempt>)
    ensures |trace| == n && forall i :: 0 <= i < n ==> trace[i] == Attempt(at, true)
  {
    seq(n, _ => Attempt(at, true))
  }

  lemma {:induction false} BurstAdmitted(before: seq<Attempt>, l: Limits, at: Time, n: nat, low: Time)
    requires n <= l.requests && l.windowSeconds >= 1 && low <= at <= low + Window(l)
    requires WindowExpired(After(before, l), at, l)
    ensures var trace := before + Burst(at, n);
            && AdmittedIn(trace, l, low, low + Window(l)) == AdmittedIn(before, l, low, low + Window(l)) + n
            && After(trace, l) == if n == 0 then After(before, l) else Quota(Some(at), n)
    decreases n
  {
    var trace := before + Burst(at, n);
    if n == 0 {
      assert trace == before;
    } else {
      BurstAdmitted(before, l, at, n - 1, low);
      assert trace[..|trace| - 1] == before + Burst(at, n - 1);
      assert trace[|trace| - 1] == Attempt(at, true);
      assert Window(l) > 0;
    }
  }

  lemma BurstsInOrder(low: Time, high: Time, n: nat)
    requires low <= high
    ensures InOrder(Burst(low, n) + Burst(high, n))
  {
  }

  lemma FirstBurst(l: Limits, low: Time)
    requires l.requests >= 1 && l.windowSeconds >= 1
    ensures var first := Burst(low, l.requests);
            && AdmittedIn(first, l, low, low + Window(l)) == l.requests
            && After(first, l) == Quota(Some(low), l.requests)
  {
    BurstAdmitted([], l, low, l.requests, low);
    assert [] + Burst(low, l.requests) == Burst(low, l.requests);
  }

  lemma SecondBurst(l: Limits, low: Time, first: seq<Attempt>)
    requires l.requests >= 1 && l.windowSeconds >= 1 && After(first, l) == Quota(Some(low), l.requests)
    ensures AdmittedIn(first + Burst(low + Window(l), l.requests), l, low, low + Window(l))
            == AdmittedIn(first, l, low, low + Window(l)) + l.requests
  {
    hide After, AdmittedIn, Window, Burst;
    BurstAdmitted(first, l, low + Window(l), l.requests, low);
  }

  /** The bound is exact: two full bursts a window apart are all admitted. */
  lemma TwiceTheLimitIsReached(l: Limits, low: Time) returns (trace: seq<Attempt>)
    requires l.requests >= 1 && l.windowSeconds >= 1
    ensures InOrder(trace) && AdmittedIn(trace, l, low, low + Window(l)) == 2 * l.requests
  {
    hide After, AdmittedIn, InOrder, Burst, Window;
    trace := Burst(low, l.requests) + Burst(low + Window(l), l.requests);
    FirstBurst(l, low);
    SecondBurst(l, low, Burst(low, l.requests));
    BurstsInOrder(low, low + Window(l), l.requests);
  }

  // ------------------------------------------------------------- retry after

  /**
   While a window is full the database rejects exactly until the window ends, and Retry-After is the least
   whole number of seconds, between one and the window's length, after which the next request is admitted.
   */
  lemma RetryAfterIsExact(trace: seq<Attempt>, l: Limits, now: Time, later: Time)
    requires InOrder(trace + [Attempt(now, true)]) && l.requests >= 1 && later >= now
    requires !Admits(After(trace, l), Attempt(now, true), l)
    ensures var q := After(trace, l);
            && q.startedAt.Some?
            && 1 <= RetryAfter(q, now, l) <= l.windowSeconds
            && (Admits(q, Attempt(later, true), l) <==> later >= q.startedAt.value + Window(l))
            && (forall seconds: nat :: Admits(q, Attempt(now + seconds * SECOND, true), l) <==> seconds >= RetryAfter(q, now, l))
  {
    var q := After(trace, l);
    CountWithinLimit(trace, l);
    assert forall a :: a in trace ==> a.at <= now by {
      forall a | a in trace ensures a.at <= now {
        var i :| 0 <= i < |trace| && trace[i] == a;
        assert (trace + [Attempt(now, true)])[i].at <= (trace + [Attempt(now, true)])[|trace|].at;
      }
    }
    StartedBefore(trace, l, now);
    var left := q.startedAt.value + Window(l) - now;
    assert 1 <= left <= Window(l);
    forall seconds: nat
      ensures Admits(q, Attempt(now + seconds * SECOND, true), l) <==> seconds >= RetryAfter(q, now, l)
    {
      assert seconds * SECOND >= left <==> seconds >= Ceil(left);
    }
  }
}

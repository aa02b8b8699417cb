/**
 * The retry loop of `TemirciScraper.fetch`. Each request's outcome is an
 * abstract value supplied by the server model, and every sleep is recorded
 * as a delay in milliseconds instead of being performed.
 */
module FetchModel {
  import opened Wrappers

  /** What one request can end in: status 200 with a body, another status, or an exception. */
  datatype Outcome = Ok(body: string) | BadStatus(code: int) | Failure

  /** The result of a fetch: the body (None for no content), the requests issued and the delays slept. */
  datatype FetchTrace = FetchTrace(body: Option<string>, requests: nat, delays: seq<nat>)

  /** The fetch call's default retry budget. */
  const DefaultRetries: int := 3

  /** The rate-limiting sleep before every attempt, 0.5 s. */
  const AttemptDelay: nat := 500

  function Pow2(a: nat): (p: nat)
    ensures p >= 1
  {
    if a == 0 then 1 else 2 * Pow2(a - 1)
  }

  /** The backoff sleep after an exception on attempt `a`: 2^a seconds. */
  function Backoff(a: nat): (d: nat)
    ensures d >= 1000
  {
    1000 * Pow2(a)
  }

  /**
   * The attempts from `a` on, when `respond(k)` is the outcome of attempt `k`
   * and attempts `0 .. retries - 1` are allowed.
   */
  function FetchFrom(respond: nat -> Outcome, retries: int, a: nat): FetchTrace
    decreases retries - a
  {
    if a >= retries then FetchTrace(None, 0, [])
    else
      match respond(a)
      case Ok(b) => FetchTrace(Some(b), 1, [AttemptDelay])
      case BadStatus(_) =>
        var rest := FetchFrom(respond, retries, a + 1);
        FetchTrace(rest.body, rest.requests + 1, [AttemptDelay] + rest.delays)
      case Failure =>
        if a < retries - 1 then
          var rest := FetchFrom(respond, retries, a + 1);
          FetchTrace(rest.body, rest.requests + 1, [AttemptDelay, Backoff(a)] + rest.delays)
        else FetchTrace(None, 1, [AttemptDelay])
  }

  /** `fetch(url, retries)` against a server whose attempt `k` ends in `respond(k)`. */
  function Fetch(respond: nat -> Outcome, retries: int): FetchTrace
  {
    FetchFrom(respond, retries, 0)
  }

  function Max0(x: int): nat
  {
    if x > 0 then x else 0
  }

  /** Attempt `k` is the first of `0 .. retries - 1` that gets status 200. */
  predicate FirstOkAt(respond: nat -> Outcome, retries: int, k: nat)
  {
    k < retries && respond(k).Ok? && forall j :: 0 <= j < k ==> !respond(j).Ok?
  }

  lemma {:induction false} FetchFromBound(respond: nat -> Outcome, retries: int, a: nat)
    ensures FetchFrom(respond, retries, a).requests <= Max0(retries - a)
    ensures a >= retries ==> FetchFrom(respond, retries, a) == FetchTrace(None, 0, [])
    decreases retries - a
  {
    if a < retries {
      FetchFromBound(respond, retries, a + 1);
    }
  }

  /** At most `retries` requests are issued; none at all, and no content, when `retries <= 0`. */
  lemma FetchBound(respond: nat -> Outcome, retries: int)
    ensures Fetch(respond, retries).requests <= Max0(retries)
    ensures retries <= 0 ==> Fetch(respond, retries) == FetchTrace(None, 0, [])
  {
    FetchFromBound(respond, retries, 0);
  }

  lemma {:induction false} FetchFromFirstOk(respond: nat -> Outcome, retries: int, a: nat, k: nat)
    requires a <= k < retries && respond(k).Ok?
    requires forall j :: a <= j < k ==> !respond(j).Ok?
    ensures FetchFrom(respond, retries, a).body == Some(respond(k).body)
    ensures FetchFrom(respond, retries, a).requests == k - a + 1
    decreases k - a
  {
    if a < k {
      assert !respond(a).Ok?;
      FetchFromFirstOk(respond, retries, a + 1, k);
    }
  }

  lemma {:induction false} FetchFromNoOk(respond: nat -> Outcome, retries: int, a: nat)
    requires forall j :: a <= j < retries ==> !respond(j).Ok?
    ensures FetchFrom(respond, retries, a).body == None
    ensures FetchFrom(respond, retries, a).requests == Max0(retries - a)
    decreases retries - a
  {
    if a < retries {
      assert !respond(a).Ok?;
      FetchFromNoOk(respond, retries, a + 1);
    }
  }

  /**
   * The body returned is that of the first status-200 attempt, which is the
   * last request issued; with no status 200 among the `retries` attempts the
   * result is no content after exactly `retries` requests (none if `retries <= 0`).
   */
  lemma FetchReturnsFirstOk(respond: nat -> Outcome, retries: int)
    ensures forall k: nat :: FirstOkAt(respond, retries, k) ==>
      Fetch(respond, retries).body == Some(respond(k).body) && Fetch(respond, retries).requests == k + 1
    ensures (forall k :: 0 <= k < retries ==> !respond(k).Ok?) ==>
      Fetch(respond, retries).body == None && Fetch(respond, retries).requests == Max0(retries)
  {
    forall k: nat | FirstOkAt(respond, retries, k)
      ensures Fetch(respond, retries).body == Some(respond(k).body) && Fetch(respond, retries).requests == k + 1
    {
      FetchFromFirstOk(respond, retries, 0, k);
    }
    if forall k :: 0 <= k < retries ==> !respond(k).Ok? {
      FetchFromNoOk(respond, retries, 0);
    }
  }

  /** Total backoff owed to the failed attempts among `lo .. hi - 1`. */
  function BackoffTotal(respond: nat -> Outcome, lo: nat, hi: int): nat
    decreases hi - lo
  {
    if lo >= hi then 0
    else (if respond(lo).Failure? then Backoff(lo) else 0) + BackoffTotal(respond, lo + 1, hi)
  }

  function Sum(s: seq<nat>): nat
  {
    if s == [] then 0 else s[0] + Sum(s[1..])
  }

  function Count(s: seq<nat>, x: nat): nat
  {
    if s == [] then 0 else (if s[0] == x then 1 else 0) + Count(s[1..], x)
  }

  lemma {:induction false} FetchFromDelays(respond: nat -> Outcome, retries: int, a: nat)
    ensures var t := FetchFrom(respond, retries, a);
            Count(t.delays, AttemptDelay) == t.requests
            && Sum(t.delays) == AttemptDelay * t.requests + BackoffTotal(respond, a, if a + t.requests < retries - 1 then a + t.requests else retries - 1)
    decreases retries - a
  {
    if a < retries {
      var t := FetchFrom(respond, retries, a);
      var rest := FetchFrom(respond, retries, a + 1);
      FetchFromDelays(respond, retries, a + 1);
      FetchFromBound(respond, retries, a + 1);
      match respond(a)
      case Ok(b) =>
      case BadStatus(_) =>
        assert t.delays[1..] == rest.delays;
      case Failure =>
        if a < retries - 1 {
          assert t.delays[1..][1..] == rest.delays;
        }
    }
  }

  /**
   * Every request is preceded by one 0.5 s delay, and the only other delays are
   * the backoffs of attempts that raised, except an exception on the last
   * allowed attempt, which returns at once.
   */
  lemma FetchDelays(respond: nat -> Outcome, retries: int)
    ensures var t := Fetch(respond, retries);
            Count(t.delays, AttemptDelay) == t.requests
            && Sum(t.delays) == AttemptDelay * t.requests + BackoffTotal(respond, 0, if t.requests < retries - 1 then t.requests else retries - 1)
  {
    FetchFromDelays(respond, retries, 0);
  }

  /**
   * What attempt `a` sleeps: 0.5 s before its request, then 2^a s when the
   * request raised and another attempt follows.
   */
  function AttemptDelays(respond: nat -> Outcome, retries: int, a: nat): (d: seq<nat>)
    ensures |d| >= 1 && d[0] == AttemptDelay
  {
    [AttemptDelay] + (if respond(a).Failure? && a < retries - 1 then [Backoff(a)] else [])
  }

  /** The delays of `n` attempts starting at `a`, in order. */
  function DelayLog(respond: nat -> Outcome, retries: int, a: nat, n: nat): seq<nat>
    decreases n
  {
    if n == 0 then [] else AttemptDelays(respond, retries, a) + DelayLog(respond, retries, a + 1, n - 1)
  }

  lemma {:induction false} FetchFromDelayLog(respond: nat -> Outcome, retries: int, a: nat)
    ensures FetchFrom(respond, retries, a).delays == DelayLog(respond, retries, a, FetchFrom(respond, retries, a).requests)
    decreases retries - a
  {
    if a < retries {
      var rest := FetchFrom(respond, retries, a + 1);
      match respond(a)
      case Ok(b) =>
        assert DelayLog(respond, retries, a + 1, 0) == [];
      case BadStatus(_) =>
        FetchFromDelayLog(respond, retries, a + 1);
      case Failure =>
        if a < retries - 1 {
          FetchFromDelayLog(respond, retries, a + 1);
          assert [AttemptDelay, Backoff(a)] + rest.delays == AttemptDelays(respond, retries, a) + rest.delays;
        } else {
          assert DelayLog(respond, retries, a + 1, 0) == [];
        }
    }
  }

  /**
   * The delay log in order: attempt after attempt, a 0.5 s delay before each
   * request, followed directly by the 2^a s backoff when attempt a raised and
   * was not the last allowed one.
   */
  lemma FetchDelayLog(respond: nat -> Outcome, retries: int)
    ensures Fetch(respond, retries).delays == DelayLog(respond, retries, 0, Fetch(respond, retries).requests)
  {
    FetchFromDelayLog(respond, retries, 0);
  }

  /** One exception, then status 200, with three attempts allowed: 0.5 s, 1 s, 0.5 s. */
  lemma FetchFailThenOk(respond: nat -> Outcome, body: string)
    requires respond(0) == Failure && respond(1) == Ok(body)
    ensures Fetch(respond, DefaultRetries) == FetchTrace(Some(body), 2, [AttemptDelay, 1000, AttemptDelay])
  {
    FetchFromFirstOk(respond, DefaultRetries, 0, 1);
    FetchDelayLog(respond, DefaultRetries);
    assert DelayLog(respond, DefaultRetries, 2, 0) == [];
  }

  lemma {:induction false} FetchFromNoFailure(respond: nat -> Outcome, retries: int, a: nat)
    requires forall j :: a <= j < retries ==> !respond(j).Failure?
    ensures var t := FetchFrom(respond, retries, a);
            |t.delays| == t.requests && forall k :: 0 <= k < |t.delays| ==> t.delays[k] == AttemptDelay
    decreases retries - a
  {
    if a < retries {
      assert !respond(a).Failure?;
      FetchFromNoFailure(respond, retries, a + 1);
    }
  }

  /** A non-200 status adds no backoff: without exceptions every delay is the 0.5 s one. */
  lemma FetchNoBackoffWithoutFailure(respond: nat -> Outcome, retries: int)
    requires forall j :: 0 <= j < retries ==> !respond(j).Failure?
    ensures var t := Fetch(respond, retries);
            |t.delays| == t.requests && forall k :: 0 <= k < |t.delays| ==> t.delays[k] == AttemptDelay
  {
    FetchFromNoFailure(respond, retries, 0);
  }

  lemma {:induction false} BackoffTotalAllFailing(respond: nat -> Outcome, n: nat)
    requires forall j :: 0 <= j < n ==> respond(j) == Failure
    ensures BackoffTotal(respond, 0, n) == 1000 * (Pow2(n) - 1)
  {
    if n > 0 {
      BackoffTotalAllFailing(respond, n - 1);
      BackoffTotalSplit(respond, 0, n - 1);
    }
  }

  lemma {:induction false} BackoffTotalSplit(respond: nat -> Outcome, lo: nat, hi: nat)
    requires lo <= hi
    ensures BackoffTotal(respond, lo, hi + 1) == BackoffTotal(respond, lo, hi) + (if respond(hi).Failure? then Backoff(hi) else 0)
    decreases hi - lo
  {
    if lo < hi {
      BackoffTotalSplit(respond, lo + 1, hi);
    }
  }

  /**
   * Against an endpoint that always raises, a fetch issues exactly `retries`
   * requests, sleeps 0.5 s before each and 1, 2, 4, ... s between them, and
   * returns no content.
   */
  lemma FetchAlwaysFailing(respond: nat -> Outcome, retries: int)
    requires retries >= 1
    requires forall j :: 0 <= j < retries ==> respond(j) == Failure
    ensures var t := Fetch(respond, retries);
            t.body == None && t.requests == retries
            && Sum(t.delays) == AttemptDelay * retries + 1000 * (Pow2(retries - 1) - 1)
  {
    FetchReturnsFirstOk(respond, retries);
    FetchDelays(respond, retries);
    BackoffTotalAllFailing(respond, retries - 1);
  }
}

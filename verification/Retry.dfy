/** internal/retry/retry.go: the HTTP layer that sends a REST request again after a transient
    failure, and how often that is. */
module Retrying {
  import opened Options

  /** What one attempt comes back with. Ended is a canceled or expired context. */
  datatype Attempt = Response(status: int) | NetworkError | Ended

  predicate Retryable(a: Attempt) {
    a.NetworkError? || (a.Response? && a.status in {429, 502, 503, 504})
  }

  /** The attempts one request makes at most, for the configured number. */
  function Limit(maxAttempts: int): (n: nat)
    ensures n >= 1
    ensures maxAttempts >= 1 ==> n == maxAttempts
  {
    if maxAttempts < 1 then 1 else maxAttempts
  }

  /** What the layer meets. Attempt number k comes back with outcome(k); before it the body
      can be rewound or not, and the wait for it succeeds or not. */
  datatype World = World(outcome: nat -> Attempt, rewinds: nat -> bool, waits: nat -> bool)

  datatype Reply = Final(outcome: Attempt) | Interrupted

  /** Attempt k calls for another. */
  predicate Tries(w: World, limit: nat, k: nat) {
    Retryable(w.outcome(k)) && k + 1 < limit && w.rewinds(k + 1)
  }

  /** And gets it. */
  predicate GoesOn(w: World, limit: nat, k: nat) {
    Tries(w, limit, k) && w.waits(k + 1)
  }

  /** What the caller is promised: every attempt but the last failed in a way worth retrying
      and was followed by a wait; the last one's outcome is returned as it is, unless the wait
      for the next one failed. */
  ghost predicate Promised(w: World, limit: nat, attempts: nat, r: Reply) {
    && attempts > 0
    && (forall k: nat :: k < attempts - 1 ==> GoesOn(w, limit, k))
    && match r
       case Final(outcome) => outcome == w.outcome(attempts - 1) && !Tries(w, limit, attempts - 1)
       case Interrupted => Tries(w, limit, attempts - 1) && !GoesOn(w, limit, attempts - 1)
  }

  method RoundTrip(w: World, maxAttempts: int) returns (r: Reply, attempts: nat)
    ensures Promised(w, Limit(maxAttempts), attempts, r)
    ensures attempts <= Limit(maxAttempts)
  {
    var max: nat := if maxAttempts < 1 then 1 else maxAttempts;
    attempts := 0;
    var last := Ended;
    while attempts < max
      invariant attempts <= max
      invariant forall k: nat :: k < attempts - 1 ==> GoesOn(w, max, k)
      invariant attempts > 0 ==> last == w.outcome(attempts - 1) && Retryable(last) && attempts < max
    {
      if attempts > 0 {
        if !w.rewinds(attempts) {
          break;
        }
        if !w.waits(attempts) {
          return Interrupted, attempts;
        }
      }
      last := w.outcome(attempts);
      assert attempts > 0 ==> GoesOn(w, max, attempts - 1);
      attempts := attempts + 1;
      assert last == w.outcome(attempts - 1);
      if !Retryable(last) || attempts == max {
        return Final(last), attempts;
      }
    }
    return Final(last), attempts;
  }

  /** The promise determines the number of attempts and the reply. */
  lemma PromiseIsUnique(w: World, limit: nat, n: nat, r: Reply, n': nat, r': Reply)
    requires Promised(w, limit, n, r) && Promised(w, limit, n', r')
    ensures n == n' && r == r'
  {
    var k: nat, k': nat := n - 1, n' - 1;
    assert n < n' ==> GoesOn(w, limit, k);
    assert n' < n ==> GoesOn(w, limit, k');
  }

  /** A request is sent more than once exactly when it may be, its body can be rewound, the
      wait succeeds, and the first attempt brought no response at all or a 429, 502, 503 or
      504: all of which the engine may have carried the request out before. */
  lemma SentAgainIff(w: World, maxAttempts: int, attempts: nat, r: Reply)
    requires Promised(w, Limit(maxAttempts), attempts, r)
    ensures attempts > 1 <==>
            && (w.outcome(0) == NetworkError || w.outcome(0) == Response(429) || w.outcome(0) == Response(502)
                || w.outcome(0) == Response(503) || w.outcome(0) == Response(504))
            && maxAttempts > 1 && w.rewinds(1) && w.waits(1)
  {
    assert attempts > 1 ==> GoesOn(w, Limit(maxAttempts), 0);
    assert attempts == 1 ==> !GoesOn(w, Limit(maxAttempts), 0);
  }

  // ---------- many requests ----------

  function Sum(sent: seq<nat>): nat {
    if sent == [] then 0 else Sum(sent[..|sent| - 1]) + sent[|sent| - 1]
  }

  /** Requests that each keep the limit put at most that many times their number on the wire. */
  lemma {:induction false} OnTheWire(sent: seq<nat>, limit: nat)
    requires forall k :: 0 <= k < |sent| ==> sent[k] <= limit
    ensures Sum(sent) <= limit * |sent|
  {
    if sent != [] {
      OnTheWire(sent[..|sent| - 1], limit);
      assert limit * |sent| == limit * (|sent| - 1) + limit;
    }
  }

  lemma OnTheWireWithin(sent: seq<nat>, limit: nat, requests: nat)
    requires |sent| <= requests && forall k :: 0 <= k < |sent| ==> sent[k] <= limit
    ensures Sum(sent) <= limit * requests
  {
    OnTheWire(sent, limit);
    Monotone(limit, |sent|, requests);
  }

  lemma {:induction false} Monotone(limit: nat, a: nat, b: nat)
    requires a <= b
    ensures limit * a <= limit * b
  {
    if a < b {
      Monotone(limit, a, b - 1);
      assert limit * b == limit * (b - 1) + limit;
    }
  }
}

/** poll.go: the eventual-consistency retry loop, its options, and how many calls it makes. */
module Polling {
  import opened Cadence
  import opened Options

  const DEFAULT_TIMEOUT: int := 5 * SECOND
  const DEFAULT_INTERVAL: int := SECOND / 4

  datatype Error = ApiError(status: int) | Canceled | Unclassified(code: int)

  datatype Call<+T> = Success(value: T) | Failure(error: Error)

  predicate IsNotFound(e: Error) {
    e == ApiError(404)
  }

  datatype Config = Config(timeout: int, interval: int, retry: Error -> bool)

  /** The options that change the loop; a nil predicate is None. */
  datatype PollOption =
    | WithPollTimeout(d: int)
    | WithPollRetryInterval(d: int)
    | WithRetryOn(pred: Option<Error -> bool>)

  function Apply(c: Config, o: PollOption): Config {
    match o
    case WithPollTimeout(d) => if d > 0 then c.(timeout := d) else c
    case WithPollRetryInterval(d) => if d > 0 then c.(interval := d) else c
    case WithRetryOn(pred) => if pred.Some? then c.(retry := pred.value) else c
  }

  /** No sequence of options leaves a timeout or an interval that is not positive. */
  function Configure(opts: seq<PollOption>): (c: Config)
    ensures c.timeout > 0 && c.interval > 0
  {
    if opts == [] then Config(DEFAULT_TIMEOUT, DEFAULT_INTERVAL, IsNotFound)
    else Apply(Configure(opts[..|opts| - 1]), opts[|opts| - 1])
  }

  /** The options that count: those that set a positive timeout or interval, or a predicate. */
  predicate SetsTimeout(o: PollOption) {
    o.WithPollTimeout? && o.d > 0
  }

  predicate SetsInterval(o: PollOption) {
    o.WithPollRetryInterval? && o.d > 0
  }

  predicate SetsRetry(o: PollOption) {
    o.WithRetryOn? && o.pred.Some?
  }

  predicate IsLast(opts: seq<PollOption>, sets: PollOption -> bool, k: nat) {
    k < |opts| && sets(opts[k]) && forall j :: k < j < |opts| ==> !sets(opts[j])
  }

  predicate IsUnset(opts: seq<PollOption>, sets: PollOption -> bool) {
    forall j :: 0 <= j < |opts| ==> !sets(opts[j])
  }

  /** Options in any number and order: the last positive timeout and interval and the last
      predicate count, each for its own setting; otherwise five seconds, a quarter of a second
      and retrying exactly on a 404. */
  lemma {:induction false} LastOptionCounts(opts: seq<PollOption>, k: nat)
    ensures IsLast(opts, SetsTimeout, k) ==> Configure(opts).timeout == opts[k].d
    ensures IsLast(opts, SetsInterval, k) ==> Configure(opts).interval == opts[k].d
    ensures IsLast(opts, SetsRetry, k) ==> Configure(opts).retry == opts[k].pred.value
    ensures IsUnset(opts, SetsTimeout) ==> Configure(opts).timeout == 5_000_000_000
    ensures IsUnset(opts, SetsInterval) ==> Configure(opts).interval == 250_000_000
    ensures IsUnset(opts, SetsRetry) ==> forall e :: Configure(opts).retry(e) <==> e == ApiError(404)
    decreases |opts|
  {
    if opts != [] {
      LastOptionCounts(opts[..|opts| - 1], k);
    }
  }

  /** What the loop meets. Call number k returns result(k) after spent(k) on the clock; the
      wait after it fails with waitError(k) or lasts extra(k) longer than asked for. Either may
      be negative: a clock can be moved back. */
  datatype World<!T> = World(
    result: nat -> Call<T>,
    spent: nat -> int,
    extra: nat -> int,
    waitError: nat -> Option<Error>)

  /** The clock contract, from one deadline check to the next: a wait that succeeds has moved
      the clock on by its duration at least, and the call after it does not take that back. */
  ghost predicate Paced<T(!new)>(w: World<T>) {
    w.spent(0) >= 0 && forall k: nat :: w.extra(k) + w.spent(k + 1) >= 0
  }

  /** What the clock reads once call k has returned, when all waits before it succeeded. */
  function NowAfter<T>(w: World<T>, p: int, start: int, k: nat): int {
    if k == 0 then start + w.spent(0)
    else NowAfter(w, p, start, k - 1) + p + w.extra(k - 1) + w.spent(k)
  }

  predicate Retryable<T>(w: World<T>, c: Config, k: nat) {
    w.result(k).Failure? && c.retry(w.result(k).error)
  }

  datatype PollResult<+T> =
    | Returned(value: T)
    | Rejected(error: Error)
    | TimedOut(last: Error)
    | Interrupted(error: Error)

  /** The loop goes on after call k. */
  predicate GoesOn<T>(w: World<T>, c: Config, start: int, k: nat) {
    && Retryable(w, c, k)
    && NowAfter(w, Clamped(c.interval), start, k) < start + c.timeout
    && w.waitError(k) == None
  }

  /** r is what the caller is promised after this many calls: every call but the last failed
      with a retryable error before the deadline, and the last one settled the matter. */
  ghost predicate Promised<T>(w: World<T>, c: Config, start: int, calls: nat, r: PollResult<T>) {
    && calls > 0
    && (forall k: nat :: k < calls - 1 ==> GoesOn(w, c, start, k))
    && var last := w.result(calls - 1);
       var now := NowAfter(w, Clamped(c.interval), start, calls - 1);
       match r
       case Returned(v) => last == Success(v)
       case Rejected(e) => last == Failure(e) && !c.retry(e)
       case TimedOut(e) => last == Failure(e) && c.retry(e) && now >= start + c.timeout
       case Interrupted(e) => last.Failure? && c.retry(last.error) && now < start + c.timeout
                              && w.waitError(calls - 1) == Some(e)
  }

  function CeilDiv(a: int, b: int): int
    requires b > 0
  {
    (a + b - 1) / b
  }

  /** The loop. The clock starts at start; calls counts the calls made. */
  method Poll<T(!new)>(w: World<T>, opts: seq<PollOption>, start: int) returns (r: PollResult<T>, calls: nat)
    requires Paced(w)
    ensures Promised(w, Configure(opts), start, calls, r)
    ensures calls <= CeilDiv(Configure(opts).timeout, Configure(opts).interval) + 1
  {
    var c := Configure(opts);
    var p := Clamped(c.interval);
    var now := start;
    var deadline := now + c.timeout;
    calls := 0;
    ghost var checked := start - p;  // the clock at the last deadline check
    while true
      invariant forall k: nat :: k < calls ==> GoesOn(w, c, start, k)
      invariant now == if calls == 0 then start
                       else NowAfter(w, p, start, calls - 1) + p + w.extra(calls - 1)
      invariant checked + p <= now + w.spent(calls) && checked < deadline
      decreases deadline - checked
    {
      var res := w.result(calls);
      now := now + w.spent(calls);
      calls := calls + 1;
      assert now == NowAfter(w, p, start, calls - 1);
      if res.Success? {
        r := Returned(res.value);
        break;
      }
      if !c.retry(res.error) {
        r := Rejected(res.error);
        break;
      }
      if !(now < deadline) {
        r := TimedOut(res.error);
        break;
      }
      var waitError := w.waitError(calls - 1);
      if waitError.Some? {
        r := Interrupted(waitError.value);
        break;
      }
      checked := now;
      now := now + p + w.extra(calls - 1);
    }
    CallsAreBounded(w, c, start, calls, r);
  }

  lemma {:induction false} EachWaitCounts<T(!new)>(w: World<T>, p: int, start: int, k: nat)
    requires p > 0 && Paced(w)
    ensures NowAfter(w, p, start, k) >= start + k * p
  {
    if k > 0 {
      EachWaitCounts(w, p, start, k - 1);
      assert k * p == (k - 1) * p + p;
    }
  }

  /** Whatever the outcome, at most ceil(timeout / interval) + 1 calls were made. */
  lemma CallsAreBounded<T(!new)>(w: World<T>, c: Config, start: int, calls: nat, r: PollResult<T>)
    requires Paced(w) && Promised(w, c, start, calls, r) && c.interval > 0 && c.timeout > 0
    ensures calls <= CeilDiv(c.timeout, c.interval) + 1
  {
    var p := c.interval;
    if calls >= 2 {
      assert GoesOn(w, c, start, calls - 2);
      EachWaitCounts(w, p, start, calls - 2);
      CeilAbove(c.timeout, p, calls - 2);
    } else {
      CeilAbove(c.timeout, p, 0);
    }
  }

  lemma CeilAbove(a: int, b: int, n: nat)
    requires b > 0 && n * b < a
    ensures n < CeilDiv(a, b)
  {
    var q := CeilDiv(a, b);
    assert q * b + (a + b - 1) % b == a + b - 1;
    assert q <= n ==> q * b <= n * b;
  }

  lemma CeilBelow(a: int, b: int, n: nat)
    requires b > 0 && a <= n * b
    ensures CeilDiv(a, b) <= n
  {
    var q := CeilDiv(a, b);
    assert q * b + (a + b - 1) % b == a + b - 1;
    assert (n + 1) * b == n * b + b;
    assert q > n ==> q * b >= (n + 1) * b;
  }

  /** The promise leaves no choice: the calls made and the result are determined. */
  lemma PromiseIsUnique<T>(w: World<T>, c: Config, start: int, n: nat, r: PollResult<T>, n': nat, r': PollResult<T>)
    requires Promised(w, c, start, n, r) && Promised(w, c, start, n', r')
    ensures n == n' && r == r'
  {
    assert n < n' ==> GoesOn(w, c, start, n - 1);
    assert n' < n ==> GoesOn(w, c, start, n' - 1);
  }

  /** A world in which nothing takes time but the waits and every call is a 404. */
  function Barren(): World<int> {
    World(_ => Failure(ApiError(404)), _ => 0, _ => 0, _ => None)
  }

  lemma {:induction false} BarrenClock(p: int, start: int, k: nat)
    ensures NowAfter(Barren(), p, start, k) == start + k * p
  {
    if k > 0 {
      BarrenClock(p, start, k - 1);
      assert k * p == (k - 1) * p + p;
    }
  }

  /** There the loop ends only at the deadline. */
  lemma BarrenTimesOut(c: Config, start: int, calls: nat, r: PollResult<int>)
    requires c.timeout > 0 && c.interval > 0 && c.retry(ApiError(404))
    requires Promised(Barren(), c, start, calls, r)
    ensures r == TimedOut(ApiError(404)) && c.timeout <= (calls - 1) * c.interval
  {
    BarrenClock(c.interval, start, calls - 1);
  }

  lemma BarrenIsPaced()
    ensures Paced(Barren())
  {
    forall k: nat
      ensures Barren().extra(k) + Barren().spent(k + 1) >= 0
    {
    }
  }

  lemma BarrenIsBounded(c: Config, start: int, calls: nat, r: PollResult<int>)
    requires c.timeout > 0 && c.interval > 0 && Promised(Barren(), c, start, calls, r)
    ensures calls <= CeilDiv(c.timeout, c.interval) + 1
  {
    BarrenIsPaced();
    CallsAreBounded(Barren(), c, start, calls, r);
  }

  /** The bound is met: there the loop makes exactly ceil(timeout / interval) + 1 calls. */
  lemma BoundIsTight(c: Config, start: int, calls: nat, r: PollResult<int>)
    requires c.timeout > 0 && c.interval > 0 && c.retry(ApiError(404))
    requires Promised(Barren(), c, start, calls, r)
    ensures calls == CeilDiv(c.timeout, c.interval) + 1 && r == TimedOut(ApiError(404))
  {
    BarrenIsBounded(c, start, calls, r);
    BarrenTimesOut(c, start, calls, r);
    CeilBelow(c.timeout, c.interval, calls - 1);
  }

  /** A world like Barren's but for a clock that each call moves back by what the wait before
      it moved it on. */
  function Rewinding(p: int): World<int> {
    World(_ => Failure(ApiError(404)), (k: nat) => if k == 0 then 0 else -p, _ => 0, _ => None)
  }

  lemma {:induction false} RewindingClock(p: int, start: int, k: nat)
    ensures NowAfter(Rewinding(p), p, start, k) == start
  {
    if k > 0 {
      RewindingClock(p, start, k - 1);
    }
  }

  /** Without that contract the loop need not end: there it goes on after every call. */
  lemma UnpacedNeverEnds(c: Config, start: int, calls: nat, r: PollResult<int>)
    requires c.timeout > 0 && c.retry(ApiError(404))
    ensures !Promised(Rewinding(Clamped(c.interval)), c, start, calls, r)
  {
    if calls > 0 {
      RewindingClock(Clamped(c.interval), start, calls - 1);
    }
  }
}

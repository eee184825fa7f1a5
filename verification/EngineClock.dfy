/** engineclock.go run by one caller: the clock object, its engine, and what one call of
    each operation does. Instants are nanoseconds since Go's zero time. */
module EngineClocks {
  import opened Options

  const ZERO_TIME: int := 0
  const MILLISECOND: int := 1_000_000

  /** The pair the clock guards with its second lock. */
  datatype Local = Local(pinned: bool, at: int)

  /** What the clock reports, given what live time reads. */
  function Reading(l: Local, live: int): int {
    if l.pinned then l.at else live
  }

  /** The engine's own clock as the local pair records it. */
  function View(l: Local): Option<int> {
    if l.pinned then Some(l.at) else None
  }

  /** A pin is a no-op when the clock already sits at or past its target. */
  predicate Skips(l: Local, target: int) {
    l.pinned && target <= l.at
  }

  /** The engine side, a ClockController. It may refuse any request, and a refused request
      changes nothing. */
  class Controller {
    var instant: Option<int>

    constructor ()
      ensures instant == None
    {
      instant := None;
    }

    method PinAt(target: int) returns (refused: bool)
      modifies this
      ensures instant == if refused then old(instant) else Some(target)
    {
      refused := *;
      if !refused {
        instant := Some(target);
      }
    }

    method ResetToLive() returns (refused: bool)
      modifies this
      ensures instant == if refused then old(instant) else None
    {
      refused := *;
      if !refused {
        instant := None;
      }
    }
  }

  class EngineClock {
    const engine: Controller
    var pinned: bool
    var at: int

    ghost function Guarded(): Local
      reads this
    {
      Local(pinned, at)
    }

    /** The clock and its engine agree on the time. */
    ghost predicate Valid()
      reads this, engine
    {
      engine.instant == View(Guarded())
    }

    constructor (engine: Controller)
      requires engine.instant == None
      ensures Valid() && this.engine == engine && !pinned
    {
      this.engine := engine;
      pinned := false;
      at := ZERO_TIME;
    }

    method Now(live: int) returns (t: int)
      ensures t == Reading(Guarded(), live)
    {
      if pinned {
        return at;
      }
      return live;
    }

    method PinTo(target: int) returns (refused: bool)
      requires Valid()
      modifies this, engine
      ensures Valid()
      ensures refused ==> Guarded() == old(Guarded()) && !old(Skips(Guarded(), target))
      ensures !refused ==>
                Guarded() == if old(Skips(Guarded(), target)) then old(Guarded()) else Local(true, target)
    {
      if pinned && !(target > at) {
        return false;
      }
      refused := engine.PinAt(target);
      if refused {
        return;
      }
      at := target;
      pinned := true;
    }

    method Reset() returns (refused: bool)
      requires Valid()
      modifies this, engine
      ensures Valid()
      ensures Guarded() == if refused then old(Guarded()) else Local(false, ZERO_TIME)
    {
      refused := engine.ResetToLive();
      if refused {
        return;
      }
      pinned := false;
      at := ZERO_TIME;
    }

    /** Run alone, a wait that succeeds leaves the clock pinned at exactly the instant it
        started from plus d, and a wait that fails leaves it where it was. */
    method Sleep(canceled: bool, d: int, live: int) returns (failed: bool)
      requires Valid()
      modifies this, engine
      ensures Valid()
      ensures failed || d <= 0 ==> Guarded() == old(Guarded())
      ensures !failed && d > 0 ==> Guarded() == Local(true, old(Reading(Guarded(), live)) + d)
      ensures canceled ==> failed
    {
      if canceled {
        return true;
      }
      if d <= 0 {
        return false;
      }
      var now := Now(live);
      failed := PinTo(now + d);
    }
  }

  /** The instant PUT /clock carries: CamundaClient.PinAt sends whole milliseconds. */
  function OnTheWire(t: int): int {
    t - t % MILLISECOND
  }

  /** Against a real engine the two clocks differ by less than a millisecond, and are equal
      exactly when the pinned instant is a whole number of milliseconds. */
  lemma WireGap(t: int)
    ensures OnTheWire(t) <= t < OnTheWire(t) + MILLISECOND
    ensures OnTheWire(t) == t <==> t % MILLISECOND == 0
    ensures OnTheWire(OnTheWire(t)) == OnTheWire(t)
  {
    assert OnTheWire(t) == MILLISECOND * (t / MILLISECOND);
  }
}

/** The FALCON capability cache of falcon.go: a probe that one caller at a time runs without
    the lock, throttled after a failure, its definitive answer written once and later read
    without the lock. */
module FalconProbe {
  import opened Options

  const RETRY_INTERVAL: nat := 30_000_000_000
  const ZERO: int := 0  // the reading that IsZero reports

  datatype Caps = Caps(endpoints: seq<string>)

  // ---------- what one probe concludes ----------

  /** What the body of a 2xx reply decodes to. A body cut off by the caller's deadline is
      Undecodable. */
  datatype Body = Undecodable | Topology(nano: bool, endpoints: seq<string>)

  datatype Reply = Unreached | Answered(status: int, body: Body)

  datatype Verdict = Transient | Definitive(caps: Option<Caps>)

  function Detect(reply: Reply): (v: Verdict)
    ensures v.Transient? <==> reply.Unreached? || !(200 <= reply.status < 300)
    ensures v.Definitive? && v.caps.Some? ==> v.caps.value.endpoints != []
  {
    match reply
    case Unreached => Transient
    case Answered(status, body) =>
      if status < 200 || status >= 300 then Transient
      else if body.Undecodable? || !body.nano || body.endpoints == [] then Definitive(None)
      else Definitive(Some(Caps(body.endpoints)))
  }

  // ---------- the two critical sections ----------

  datatype Cache = Cache(resolved: bool, probing: bool, lastProbe: int, caps: Option<Caps>, dialer: bool)

  const EMPTY := Cache(false, false, ZERO, None, false)

  /** What a caller does when it first releases the lock: return this answer, or probe. */
  datatype Entry = Answer(caps: Option<Caps>) | Probe

  predicate Throttled(c: Cache, now: int) {
    c.lastProbe != ZERO && now - c.lastProbe < RETRY_INTERVAL
  }

  /** now and later are the two clock readings; builds tells whether a dialer can be built. */
  function Admit(c: Cache, now: int, later: int, builds: bool): (Cache, Entry) {
    if c.resolved then (c, Answer(c.caps))
    else if c.probing || Throttled(c, now) then (c, Answer(None))
    else if !c.dialer && !builds then (c.(resolved := true), Answer(None))
    else (c.(dialer := true, probing := true, lastProbe := later), Probe)
  }

  function Settle(c: Cache, v: Verdict): (Cache, Option<Caps>) {
    match v
    case Transient => (c.(probing := false), None)
    case Definitive(caps) => (c.(probing := false, resolved := true, caps := caps), caps)
  }

  /** The client's fields. falconCaps is AdmitCall and, when that says to probe, SettleCall
      after the probe; other callers may run in between. */
  class Client {
    const enabled: bool
    var resolved: bool
    var probing: bool
    var lastProbe: int
    var caps: Option<Caps>
    var dialer: bool
    var produced: bool
    var producer: Option<seq<string>>

    function Fields(): Cache
      reads this
    {
      Cache(resolved, probing, lastProbe, caps, dialer)
    }

    constructor (enabled: bool)
      ensures this.enabled == enabled && Fields() == EMPTY && !produced
    {
      this.enabled := enabled;
      resolved, probing, lastProbe, caps, dialer := false, false, ZERO, None, false;
      produced, producer := false, None;
    }

    method AdmitCall(now: int, later: int, builds: bool) returns (e: Entry)
      modifies `resolved, `probing, `lastProbe, `dialer
      ensures !enabled ==> e == Answer(None) && Fields() == old(Fields())
      ensures enabled ==> (Fields(), e) == Admit(old(Fields()), now, later, builds)
    {
      if !enabled {
        return Answer(None);
      }
      if resolved {
        return Answer(caps);
      }
      if probing || (lastProbe != ZERO && now - lastProbe < RETRY_INTERVAL) {
        return Answer(None);
      }
      if !dialer {
        if !builds {
          resolved := true;
          return Answer(None);
        }
        dialer := true;
      }
      probing := true;
      lastProbe := later;
      return Probe;
    }

    method SettleCall(v: Verdict) returns (answer: Option<Caps>)
      modifies `resolved, `probing, `caps
      ensures (Fields(), answer) == Settle(old(Fields()), v)
    {
      probing := false;
      if v.Transient? {
        return None;
      }
      resolved := true;
      caps := v.caps;
      return v.caps;
    }

    /** The once-only producer; starts tells whether StartProducer succeeds. */
    method Producer(read: Caps, starts: bool) returns (p: Option<seq<string>>)
      modifies `produced, `producer
      ensures produced && p == producer
      ensures old(produced) ==> producer == old(producer)
      ensures !old(produced) ==> producer == if starts then Some(read.endpoints) else None
    {
      if !produced {
        produced := true;
        producer := if starts then Some(read.endpoints) else None;
      }
      return producer;
    }
  }
}

/** Any number of callers of falconCaps and of the create path, on a clock that does not
    move back. */
module FalconProbeProtocol {
  import opened FalconProbe
  import opened Options
  import opened Runs

  /** creating holds, for each create routed to the stream that has not yet read the cached
      capabilities, the value falconCaps gave it. */
  datatype State = State(
    clock: int,
    cache: Cache,
    probers: nat,                       // callers between the two critical sections
    starts: seq<int>,                   // the recorded times of the probes started
    answers: seq<Option<Caps>>,         // what falconCaps returned, in order
    creating: multiset<Caps>,
    seen: seq<(Caps, Option<Caps>)>,   // what a create was given, and what it read unlocked
    producer: Option<(Option<Caps>, bool)>)  // the capabilities and dialer it was built from

  function Start(clock: int): State {
    State(clock, EMPTY, 0, [], [], multiset{}, [], None)
  }

  datatype Move =
    | Tick(d: nat)
    | Enter(pause: nat, builds: bool)   // pause passes between the two readings
    | Leave(reply: Reply)               // the prober's second critical section
    | Create(given: Caps)               // the unlocked read, then the once-only producer

  /** Hands an answer of falconCaps to its caller. */
  function Return(s: State, caps: Option<Caps>): State {
    s.(answers := s.answers + [caps],
       creating := if caps.Some? then s.creating + multiset{caps.value} else s.creating)
  }

  function EnterStep(s: State, pause: nat, builds: bool): State {
    var (cache, entry) := Admit(s.cache, s.clock, s.clock + pause, builds);
    match entry
    case Answer(caps) => Return(s.(cache := cache), caps)
    case Probe =>
      s.(cache := cache, clock := s.clock + pause, probers := s.probers + 1, starts := s.starts + [s.clock + pause])
  }

  function LeaveStep(s: State, reply: Reply): State
    requires s.probers > 0
  {
    var (cache, caps) := Settle(s.cache, Detect(reply));
    Return(s.(cache := cache, probers := s.probers - 1), caps)
  }

  function CreateStep(s: State, given: Caps): State {
    s.(creating := s.creating - multiset{given},
       seen := s.seen + [(given, s.cache.caps)],
       producer := if s.producer.None? then Some((s.cache.caps, s.cache.dialer)) else s.producer)
  }

  function Step(s: State, m: Move): Option<State> {
    match m
    case Tick(d) => Some(s.(clock := s.clock + d))
    case Enter(pause, builds) => Some(EnterStep(s, pause, builds))
    case Leave(reply) => if s.probers > 0 then Some(LeaveStep(s, reply)) else None
    case Create(given) => if given in s.creating then Some(CreateStep(s, given)) else None
  }

  // ---------- the invariant ----------

  ghost predicate FlightInv(s: State) {
    && s.probers == (if s.cache.probing then 1 else 0)
    && (s.cache.resolved ==> !s.cache.probing)
    && (s.cache.probing || s.cache.caps.Some? ==> s.cache.dialer)
    && (s.cache.caps.Some? ==> s.cache.resolved)
  }

  ghost predicate ValueInv(s: State) {
    && (forall a <- s.answers :: a.Some? ==> a == s.cache.caps)
    && (forall v <- s.creating :: Some(v) == s.cache.caps)
    && (forall r <- s.seen :: Some(r.0) == r.1 == s.cache.caps)
    && (s.producer.Some? ==> s.producer.value == (s.cache.caps, true) && s.cache.caps.Some?)
  }

  ghost predicate PaceInv(s: State) {
    && (s.starts == [] ==> s.cache.lastProbe == ZERO)
    && (s.starts != [] ==> s.cache.dialer)
    && (s.starts != [] ==> s.starts[|s.starts| - 1] == s.cache.lastProbe <= s.clock)
    && (forall i {:trigger s.starts[i]} :: 0 <= i < |s.starts| - 1 ==>
          s.starts[i] == ZERO || s.starts[i + 1] - s.starts[i] >= RETRY_INTERVAL)
  }

  ghost predicate Inv(s: State) {
    FlightInv(s) && ValueInv(s) && PaceInv(s)
  }

  lemma StepKeepsInv(s: State, m: Move)
    requires Inv(s) && Step(s, m).Some?
    ensures Inv(Step(s, m).value)
  {
    if m.Enter? {
      EnterKeepsInv(s, m.pause, m.builds);
    } else if m.Leave? {
      LeaveKeepsInv(s, m.reply);
    }
  }

  lemma EnterKeepsInv(s: State, pause: nat, builds: bool)
    requires Inv(s)
    ensures Inv(EnterStep(s, pause, builds))
  {
    EnterKeepsValues(s, pause, builds);
    EnterKeepsPace(s, pause, builds);
  }

  lemma EnterKeepsValues(s: State, pause: nat, builds: bool)
    requires FlightInv(s) && ValueInv(s)
    ensures ValueInv(EnterStep(s, pause, builds))
  {
  }

  lemma EnterKeepsPace(s: State, pause: nat, builds: bool)
    requires PaceInv(s)
    ensures PaceInv(EnterStep(s, pause, builds))
  {
    var s' := EnterStep(s, pause, builds);
    assert s'.starts == s.starts || s'.starts == s.starts + [s.clock + pause];
  }

  lemma LeaveKeepsInv(s: State, reply: Reply)
    requires Inv(s) && s.probers > 0
    ensures Inv(LeaveStep(s, reply))
  {
    assert s.cache.caps.None?;
  }

  lemma Reachable(clock: int, moves: seq<Move>, s: State)
    requires Exec(Step, Start(clock), moves) == Some(s)
    ensures Inv(s)
  {
    forall p, m | Inv(p) && Step(p, m).Some?
      ensures Inv(Step(p, m).value)
    {
      StepKeepsInv(p, m);
    }
    assert Inv(Start(clock));
    Invariant(Step, Inv, Start(clock), moves);
  }

  // ---------- claims about every run ----------

  /** At most one probe is in flight, the flag says so, and none once the answer is known. */
  lemma SingleFlight(clock: int, moves: seq<Move>, s: State)
    requires Exec(Step, Start(clock), moves) == Some(s)
    ensures s.probers <= 1 && (s.cache.probing <==> s.probers == 1)
    ensures s.cache.resolved ==> s.probers == 0
  {
    Reachable(clock, moves, s);
  }

  /** Probes start at least the retry interval apart, unless the earlier one was recorded at
      the clock's zero time, which the code takes for no probe at all. So over any stretch
      without such a reading their number is bounded by the time that passed. */
  lemma ProbesAreThrottled(clock: int, moves: seq<Move>, s: State, i: nat, j: nat)
    requires Exec(Step, Start(clock), moves) == Some(s)
    requires i <= j < |s.starts| && forall k :: i <= k < j ==> s.starts[k] != ZERO
    ensures s.starts[i] + (j - i) * RETRY_INTERVAL <= s.starts[j] <= s.clock
  {
    Reachable(clock, moves, s);
    SpacedOut(s, i, j);
    Ordered(clock, moves, s, j);
  }

  lemma {:induction false} SpacedOut(s: State, i: nat, j: nat)
    requires PaceInv(s) && i <= j < |s.starts| && forall k :: i <= k < j ==> s.starts[k] != ZERO
    ensures s.starts[i] + (j - i) * RETRY_INTERVAL <= s.starts[j]
    decreases j
  {
    if i < j {
      SpacedOut(s, i, j - 1);
      assert s.starts[j - 1] != ZERO;
    }
  }

  ghost predicate StartsPassed(s: State) {
    forall t <- s.starts :: t <= s.clock
  }

  lemma Ordered(clock: int, moves: seq<Move>, s: State, j: nat)
    requires Exec(Step, Start(clock), moves) == Some(s) && j < |s.starts|
    ensures s.starts[j] <= s.clock
  {
    forall p, m | StartsPassed(p) && Step(p, m).Some?
      ensures StartsPassed(Step(p, m).value)
    {
    }
    assert StartsPassed(Start(clock));
    Invariant(Step, StartsPassed, Start(clock), moves);
    assert s.starts[j] in s.starts;
  }

  /** One call that probes and gets this reply, both at the current time. */
  function ProbeOnce(s: State, reply: Reply): State {
    var p := EnterStep(s, 0, true);
    if p.probers > 0 then LeaveStep(p, reply) else p
  }

  lemma ExecProbeOnce(clock: int, moves: seq<Move>, s: State, reply: Reply) returns (moves': seq<Move>)
    requires Exec(Step, Start(clock), moves) == Some(s) && EnterStep(s, 0, true).probers > 0
    ensures moves' == moves + [Enter(0, true), Leave(reply)]
    ensures Exec(Step, Start(clock), moves') == Some(ProbeOnce(s, reply))
  {
    var entered, p := Extend(Step, Start(clock), moves, Enter(0, true));
    var left, q := Extend(Step, Start(clock), entered, Leave(reply));
    moves' := left;
  }

  lemma FailedProbe(s: State)
    requires !s.cache.resolved && !s.cache.probing && !Throttled(s.cache, s.clock)
    ensures ProbeOnce(s, Unreached) == s.(cache := s.cache.(dialer := true, lastProbe := s.clock),
                                          starts := s.starts + [s.clock], answers := s.answers + [None])
  {
  }

  /** At the zero time the throttle is off: any number of failed probes fit in one instant. */
  lemma {:induction false} ZeroReadingDefeatsTheThrottle(n: nat) returns (moves: seq<Move>, s: State)
    ensures Exec(Step, Start(ZERO), moves) == Some(s)
    ensures s.clock == ZERO && |s.starts| == n && s.cache == EMPTY.(dialer := n > 0) && s.probers == 0
  {
    if n == 0 {
      moves, s := [], Start(ZERO);
    } else {
      moves, s := ZeroReadingDefeatsTheThrottle(n - 1);
      FailedProbe(s);
      moves := ExecProbeOnce(ZERO, moves, s, Unreached);
      s := ProbeOnce(s, Unreached);
    }
  }

  /** Exactly when the next probe comes too soon after the last, whatever passes between its
      own two clock readings: when the last one was recorded at the zero time, on a clock that
      has not moved the interval on since. */
  lemma TooSoonIff(clock: int, moves: seq<Move>, s: State, pause: nat, builds: bool)
    requires Exec(Step, Start(clock), moves) == Some(s)
    requires s.starts != [] && !s.cache.resolved && !s.cache.probing
    ensures var last := s.starts[|s.starts| - 1];
            |EnterStep(s, pause, builds).starts| > |s.starts| && s.clock + pause - last < RETRY_INTERVAL
            <==> last == ZERO && s.clock + pause < ZERO + RETRY_INTERVAL
  {
    Reachable(clock, moves, s);
  }

  ghost predicate Settled(s: State, caps: Option<Caps>, known: nat) {
    && s.cache.resolved && s.cache.caps == caps && s.probers == 0
    && known <= |s.answers| && forall i :: known <= i < |s.answers| ==> s.answers[i] == caps
  }

  /** Once resolved, the cache never changes again: every later call returns exactly the
      cached answer and no probe is ever started. */
  lemma ResolvedIsFinal(clock: int, moves: seq<Move>, s: State, later: seq<Move>, t: State)
    requires Exec(Step, Start(clock), moves) == Some(s) && s.cache.resolved
    requires Exec(Step, s, later) == Some(t)
    ensures t.cache.resolved && t.cache.caps == s.cache.caps && t.probers == 0
    ensures |s.answers| <= |t.answers|
    ensures forall i :: |s.answers| <= i < |t.answers| ==> t.answers[i] == s.cache.caps
  {
    Reachable(clock, moves, s);
    var settled := (p: State) => Settled(p, s.cache.caps, |s.answers|);
    forall p, m | settled(p) && Step(p, m).Some?
      ensures settled(Step(p, m).value)
    {
      SettledStays(p, m, s.cache.caps, |s.answers|);
    }
    assert settled(s);
    Invariant(Step, settled, s, later);
    assert settled(t);
  }

  lemma SettledStays(p: State, m: Move, caps: Option<Caps>, known: nat)
    requires Settled(p, caps, known) && Step(p, m).Some?
    ensures Settled(Step(p, m).value, caps, known)
  {
  }

  /** Over the whole run falconCaps hands out at most one non-nil value, and that value is
      the cached one, with the dialer in place. */
  lemma OneValueEver(clock: int, moves: seq<Move>, s: State, i: nat)
    requires Exec(Step, Start(clock), moves) == Some(s)
    requires i < |s.answers| && s.answers[i].Some?
    ensures s.answers[i] == s.cache.caps && s.cache.resolved && s.cache.dialer
    ensures s.cache.caps.value.endpoints != []
  {
    Reachable(clock, moves, s);
    assert s.answers[i] in s.answers;
    CachedIsDialable(clock, moves, s);
  }

  ghost predicate Dialable(s: State) {
    s.cache.caps.Some? ==> s.cache.caps.value.endpoints != []
  }

  lemma StepKeepsDialable(s: State, m: Move)
    requires Dialable(s) && Step(s, m).Some?
    ensures Dialable(Step(s, m).value)
  {
  }

  lemma StartsDialable(clock: int)
    ensures Dialable(Start(clock))
  {
  }

  lemma CachedIsDialable(clock: int, moves: seq<Move>, s: State)
    requires Exec(Step, Start(clock), moves) == Some(s)
    ensures Dialable(s)
  {
    hide Step, Dialable;
    forall p, m | Dialable(p) && Step(p, m).Some?
      ensures Dialable(Step(p, m).value)
    {
      StepKeepsDialable(p, m);
    }
    StartsDialable(clock);
    Invariant(Step, Dialable, Start(clock), moves);
  }

  /** The create path reads the cache without the lock and still sees the value its own call
      of falconCaps returned; the one producer is built from that value and a dialer. */
  lemma UnlockedReadIsSafe(clock: int, moves: seq<Move>, s: State)
    requires Exec(Step, Start(clock), moves) == Some(s)
    ensures forall i :: 0 <= i < |s.seen| ==> s.seen[i].1 == Some(s.seen[i].0)
    ensures s.producer.Some? ==> s.producer.value.0.Some? && s.producer.value.1
    ensures s.producer.Some? ==> s.producer.value.0 == s.cache.caps
  {
    Reachable(clock, moves, s);
    forall i | 0 <= i < |s.seen|
      ensures s.seen[i].1 == Some(s.seen[i].0)
    {
      assert s.seen[i] in s.seen;
    }
  }

  /** The calls that were told of a stream. */
  function Told(answers: seq<Option<Caps>>): nat {
    if answers == [] then 0
    else Told(answers[..|answers| - 1]) + (if answers[|answers| - 1].Some? then 1 else 0)
  }

  ghost predicate LedgerInv(s: State) {
    && Told(s.answers) == |s.creating| + |s.seen|
    && (s.producer.Some? <==> s.seen != [])
  }

  lemma ReturnKeepsLedger(s: State, caps: Option<Caps>)
    requires LedgerInv(s)
    ensures LedgerInv(Return(s, caps))
  {
    assert (s.answers + [caps])[..|s.answers|] == s.answers;
  }

  lemma EnterKeepsLedger(s: State, pause: nat, builds: bool)
    requires LedgerInv(s)
    ensures LedgerInv(EnterStep(s, pause, builds))
  {
    var (cache, entry) := Admit(s.cache, s.clock, s.clock + pause, builds);
    if entry.Answer? {
      ReturnKeepsLedger(s.(cache := cache), entry.caps);
    }
  }

  lemma LeaveKeepsLedger(s: State, reply: Reply)
    requires LedgerInv(s) && s.probers > 0
    ensures LedgerInv(LeaveStep(s, reply))
  {
    var (cache, caps) := Settle(s.cache, Detect(reply));
    ReturnKeepsLedger(s.(cache := cache, probers := s.probers - 1), caps);
  }

  lemma CreateKeepsLedger(s: State, given: Caps)
    requires LedgerInv(s) && given in s.creating
    ensures LedgerInv(CreateStep(s, given))
  {
    assert s.creating == (s.creating - multiset{given}) + multiset{given};
  }

  lemma StepKeepsLedger(s: State, m: Move)
    requires LedgerInv(s) && Step(s, m).Some?
    ensures LedgerInv(Step(s, m).value)
  {
    if m.Enter? {
      EnterKeepsLedger(s, m.pause, m.builds);
    } else if m.Leave? {
      LeaveKeepsLedger(s, m.reply);
    } else if m.Create? {
      CreateKeepsLedger(s, m.given);
    }
  }

  /** Every call told of a stream goes on to the create path and reads the cache there once,
      and the first of them to do so has the producer built. */
  lemma EveryCreateReads(clock: int, moves: seq<Move>, s: State)
    requires Exec(Step, Start(clock), moves) == Some(s)
    ensures Told(s.answers) == |s.creating| + |s.seen|
    ensures s.producer.Some? <==> s.seen != []
    ensures forall v <- s.creating :: Step(s, Create(v)).Some?
  {
    forall p, m | LedgerInv(p) && Step(p, m).Some?
      ensures LedgerInv(Step(p, m).value)
    {
      StepKeepsLedger(p, m);
    }
    assert LedgerInv(Start(clock));
    Invariant(Step, LedgerInv, Start(clock), moves);
  }

  // ---------- which probes settle the client on REST ----------

  /** A 2xx reply that does not name a stream: its body cannot be decoded, which is what one
      cut off by the caller's deadline comes to, has no nano section, or has no endpoints. */
  predicate TakenForStock(reply: Reply) {
    && reply.Answered? && 200 <= reply.status < 300
    && (reply.body.Undecodable? || !reply.body.nano || reply.body.endpoints == [])
  }

  predicate NoStreamSince(known: nat, t: State) {
    forall i :: known <= i < |t.answers| ==> t.answers[i] == None
  }

  /** Once the probe in flight got this reply, no call ever hears of a stream again. */
  ghost predicate RestForGood(s: State, reply: Reply)
    requires s.probers > 0
  {
    forall later: seq<Move> :: Exec(Step, LeaveStep(s, reply), later).Some? ==>
      NoStreamSince(|s.answers|, Exec(Step, LeaveStep(s, reply), later).value)
  }

  /** Whatever the run before, a reply settles the client on REST for its lifetime exactly when
      it is taken for a stock gateway's. */
  lemma RestForGoodIff(clock: int, moves: seq<Move>, s: State, reply: Reply)
    requires Exec(Step, Start(clock), moves) == Some(s) && s.probers > 0
    ensures RestForGood(s, reply) <==> TakenForStock(reply)
  {
    if TakenForStock(reply) {
      forall later: seq<Move> | Exec(Step, LeaveStep(s, reply), later).Some?
        ensures NoStreamSince(|s.answers|, Exec(Step, LeaveStep(s, reply), later).value)
      {
        StockIsFinal(clock, moves, s, reply, later, Exec(Step, LeaveStep(s, reply), later).value);
      }
    } else {
      Reachable(clock, moves, s);
      var later, t := StreamIsFound(s, reply);
      assert !NoStreamSince(|s.answers|, Exec(Step, LeaveStep(s, reply), later).value);
    }
  }

  lemma StreamIsFound(s: State, reply: Reply) returns (later: seq<Move>, t: State)
    requires Inv(s) && s.probers > 0 && !TakenForStock(reply)
    ensures Exec(Step, LeaveStep(s, reply), later) == Some(t) && !NoStreamSince(|s.answers|, t)
  {
    if Detect(reply).Transient? {
      later, t := TransientIsRetried(s, reply);
      assert t.answers[|t.answers| - 1].Some?;
    } else {
      later, t := [], LeaveStep(s, reply);
      NamedIsAnswered(s, reply);
    }
  }

  lemma NamedIsAnswered(s: State, reply: Reply)
    requires s.probers > 0 && Detect(reply).Definitive? && !TakenForStock(reply)
    ensures LeaveStep(s, reply).answers == s.answers + [Some(Caps(reply.body.endpoints))]
    ensures !NoStreamSince(|s.answers|, LeaveStep(s, reply))
  {
    assert LeaveStep(s, reply).answers[|s.answers|].Some?;
  }

  lemma StockIsFinal(clock: int, moves: seq<Move>, s: State, reply: Reply, later: seq<Move>, t: State)
    requires Exec(Step, Start(clock), moves) == Some(s) && s.probers > 0 && TakenForStock(reply)
    requires Exec(Step, LeaveStep(s, reply), later) == Some(t)
    ensures NoStreamSince(|s.answers|, t)
  {
    var left, u := Extend(Step, Start(clock), moves, Leave(reply));
    ResolvedIsFinal(clock, left, u, later, t);
    Concatenation(Step, Start(clock), left, later);
    Reachable(clock, left + later, t);
    assert t.cache.caps == None;
    assert forall a <- t.answers :: a == None;
  }

  const STREAM: Reply := Answered(200, Topology(true, ["ws://gateway"]))

  /** After a reply that is not definitive the retry interval and one call are enough to find
      the stream, whatever came before. */
  lemma TransientIsRetried(s: State, reply: Reply) returns (later: seq<Move>, t: State)
    requires Inv(s) && s.probers > 0 && Detect(reply).Transient?
    ensures Exec(Step, LeaveStep(s, reply), later) == Some(t)
    ensures |t.answers| == |s.answers| + 2 && t.answers[|t.answers| - 1] == Some(Caps(["ws://gateway"]))
  {
    var p := LeaveStep(s, reply);
    assert s.starts == [] ==> s.cache.lastProbe == ZERO;
    assert p.cache == s.cache.(probing := false) && |p.answers| == |s.answers| + 1;
    var q;
    later, q := Extend(Step, p, [], Tick(RETRY_INTERVAL));
    later, t := ProbeFinds(p, later, q);
  }

  lemma ProbeFinds(start: State, moves: seq<Move>, s: State) returns (moves': seq<Move>, t: State)
    requires Exec(Step, start, moves) == Some(s)
    requires !s.cache.resolved && !s.cache.probing && s.cache.dialer && !Throttled(s.cache, s.clock)
    ensures Exec(Step, start, moves') == Some(t)
    ensures t.answers == s.answers + [Some(Caps(["ws://gateway"]))]
  {
    moves', t := Extend(Step, start, moves, Enter(0, true));
    assert t.probers > 0 && t.answers == s.answers;
    moves', t := Extend(Step, start, moves', Leave(STREAM));
  }

  /** In particular a deadline that cuts off the body of a 2xx reply does, against the comment
      that a canceled probe is transient. */
  lemma CutBodyIsFinal(clock: int, moves: seq<Move>, s: State, status: int)
    requires Exec(Step, Start(clock), moves) == Some(s) && s.probers > 0
    ensures RestForGood(s, Answered(status, Undecodable)) <==> 200 <= status < 300
    ensures !RestForGood(s, Unreached)
  {
    RestForGoodIff(clock, moves, s, Answered(status, Undecodable));
    RestForGoodIff(clock, moves, s, Unreached);
  }
}

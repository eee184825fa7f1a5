/** engineclock.go run by any number of callers. Each lock acquired or released, each
    guarded field read or written and each engine round-trip is one step, so every
    interleaving of Sleep, PinTo, Reset and Now is a sequence of moves. */
module EngineClockProtocol {
  import opened EngineClocks
  import opened Options
  import opened Runs

  /** A pin asked for directly, or the pin of a wait that read the clock at base. */
  datatype Request = Pin(to: int) | Wait(base: int, d: int)

  function Target(r: Request): int {
    match r
    case Pin(to) => to
    case Wait(base, d) => base + d
  }

  /** Where a caller is. Names with Mu hold the inner lock as well. */
  datatype Pc =
    | Idle
    | WantsRead(d: Option<int>)                 // Now, called by Sleep when d is given
    | ReadMu(d: Option<int>)
    | ReadDoneMu(d: Option<int>, now: int)
    | PinWantsGate(r: Request)
    | PinWantsRead(r: Request)                  // from here on the gate is held
    | PinReadMu(r: Request)
    | PinReadDoneMu(r: Request, seen: Local)
    | PinDecides(r: Request, seen: Local)
    | PinCalls(r: Request)
    | PinAccepted(r: Request)
    | PinWritesAtMu(r: Request)
    | PinWritesFlagMu(r: Request)
    | PinUnlocksMu(r: Request)
    | PinLeaves(r: Request, refused: bool)
    | ResetWantsGate
    | ResetCalls                                // from here on the gate is held
    | ResetAccepted
    | ResetWritesFlagMu
    | ResetWritesAtMu
    | ResetUnlocksMu
    | ResetLeaves(refused: bool)

  predicate HoldsGate(pc: Pc) {
    !(pc.Idle? || pc.WantsRead? || pc.ReadMu? || pc.ReadDoneMu? || pc.PinWantsGate? || pc.ResetWantsGate?)
  }

  predicate HoldsMu(pc: Pc) {
    || pc.ReadMu? || pc.ReadDoneMu? || pc.PinReadMu? || pc.PinReadDoneMu?
    || pc.PinWritesAtMu? || pc.PinWritesFlagMu? || pc.PinUnlocksMu?
    || pc.ResetWritesFlagMu? || pc.ResetWritesAtMu? || pc.ResetUnlocksMu?
  }

  /** The holder is in PinTo rather than in Reset. */
  predicate OfPin(pc: Pc) {
    || pc.PinWantsRead? || pc.PinReadMu? || pc.PinReadDoneMu? || pc.PinDecides? || pc.PinCalls?
    || pc.PinAccepted? || pc.PinWritesAtMu? || pc.PinWritesFlagMu? || pc.PinUnlocksMu? || pc.PinLeaves?
  }

  /** The guarded pair, the engine's clock and the history. entry is the pair as it was when
      the gate was last taken, accepted lists the pins the engine took since it last took a
      reset, settled the requests that returned nil since the last reset that did, and
      resets counts the resets published. */
  datatype Book = Book(
    local: Local,
    engine: Option<int>,
    entry: Local,
    accepted: seq<int>,
    settled: seq<Request>,
    resets: nat)

  datatype State = State(gate: Option<nat>, mu: Option<nat>, callers: map<nat, Pc>, book: Book)

  const LIVE: Local := Local(false, ZERO_TIME)
  const INIT: State := State(None, None, map[], Book(LIVE, None, LIVE, [], [], 0))

  datatype Op = Sleep(canceled: bool, d: int) | PinTo(to: int) | Reset | Now

  /** The scheduler picks a caller. live is what live time reads and refuse what the engine
      answers, should the step consult them. */
  datatype Move = Begin(c: nat, op: Op) | Advance(c: nat, live: int, refuse: bool)

  function PcOf(s: State, c: nat): Pc {
    if c in s.callers then s.callers[c] else Idle
  }

  function Goes(s: State, c: nat, pc: Pc): State {
    s.(callers := s.callers[c := pc])
  }

  function Writes(s: State, c: nat, pc: Pc, book: Book): State {
    s.(callers := s.callers[c := pc], book := book)
  }

  function LockMu(s: State, c: nat, pc: Pc): Option<State> {
    if s.mu == None then Some(Goes(s.(mu := Some(c)), c, pc)) else None
  }

  function UnlockMu(s: State, c: nat, pc: Pc): Option<State> {
    Some(Goes(s.(mu := None), c, pc))
  }

  function LockGate(s: State, c: nat, pc: Pc): Option<State> {
    if s.gate == None then
      Some(Writes(s.(gate := Some(c)), c, pc, s.book.(entry := s.book.local)))
    else None
  }

  function Leave(s: State, c: nat, settled: seq<Request>): Option<State> {
    Some(Writes(s.(gate := None), c, Idle, s.book.(settled := settled)))
  }

  function Start(s: State, c: nat, op: Op): State {
    match op
    case Sleep(canceled, d) => if canceled || d <= 0 then s else Goes(s, c, WantsRead(Some(d)))
    case PinTo(to) => Goes(s, c, PinWantsGate(Pin(to)))
    case Reset => Goes(s, c, ResetWantsGate)
    case Now => Goes(s, c, WantsRead(None))
  }

  /** A step of a caller that does not hold the gate. */
  function Outside(s: State, c: nat, pc: Pc, live: int): Option<State> {
    match pc
    case WantsRead(d) => LockMu(s, c, ReadMu(d))
    case ReadMu(d) => Some(Goes(s, c, ReadDoneMu(d, Reading(s.book.local, live))))
    case ReadDoneMu(d, now) => UnlockMu(s, c, if d.Some? then PinWantsGate(Wait(now, d.value)) else Idle)
    case PinWantsGate(r) => LockGate(s, c, PinWantsRead(r))
    case ResetWantsGate => LockGate(s, c, ResetCalls)
    case _ => None
  }

  /** A step of the caller holding the gate in PinTo. */
  function Pinning(s: State, c: nat, pc: Pc, refuse: bool): Option<State> {
    var b := s.book;
    match pc
    case PinWantsRead(r) => LockMu(s, c, PinReadMu(r))
    case PinReadMu(r) => Some(Goes(s, c, PinReadDoneMu(r, b.local)))
    case PinReadDoneMu(r, seen) => UnlockMu(s, c, PinDecides(r, seen))
    case PinDecides(r, seen) => Some(Goes(s, c, if Skips(seen, Target(r)) then PinLeaves(r, false) else PinCalls(r)))
    case PinCalls(r) =>
      if refuse then Some(Goes(s, c, PinLeaves(r, true)))
      else Some(Writes(s, c, PinAccepted(r), b.(engine := Some(Target(r)), accepted := b.accepted + [Target(r)])))
    case PinAccepted(r) => LockMu(s, c, PinWritesAtMu(r))
    case PinWritesAtMu(r) => Some(Writes(s, c, PinWritesFlagMu(r), b.(local := b.local.(at := Target(r)))))
    case PinWritesFlagMu(r) => Some(Writes(s, c, PinUnlocksMu(r), b.(local := b.local.(pinned := true))))
    case PinUnlocksMu(r) => UnlockMu(s, c, PinLeaves(r, false))
    case PinLeaves(r, refused) => Leave(s, c, if refused then b.settled else b.settled + [r])
    case _ => None
  }

  /** A step of the caller holding the gate in Reset. */
  function Resetting(s: State, c: nat, pc: Pc, refuse: bool): Option<State> {
    var b := s.book;
    match pc
    case ResetCalls =>
      if refuse then Some(Goes(s, c, ResetLeaves(true)))
      else Some(Writes(s, c, ResetAccepted, b.(engine := None, accepted := [])))
    case ResetAccepted => LockMu(s, c, ResetWritesFlagMu)
    case ResetWritesFlagMu =>
      Some(Writes(s, c, ResetWritesAtMu, b.(local := b.local.(pinned := false), resets := b.resets + 1)))
    case ResetWritesAtMu => Some(Writes(s, c, ResetUnlocksMu, b.(local := b.local.(at := ZERO_TIME))))
    case ResetUnlocksMu => UnlockMu(s, c, ResetLeaves(false))
    case ResetLeaves(refused) => Leave(s, c, if refused then b.settled else [])
    case _ => None
  }

  function Step(s: State, m: Move): Option<State> {
    var pc := PcOf(s, m.c);
    if m.Begin? then
      if pc.Idle? then Some(Start(s, m.c, m.op)) else None
    else if !HoldsGate(pc) then Outside(s, m.c, pc, m.live)
    else if OfPin(pc) then Pinning(s, m.c, pc, m.refuse)
    else Resetting(s, m.c, pc, m.refuse)
  }

  // ---------- the invariant ----------

  ghost predicate Increasing(s: seq<int>) {
    forall i, j :: 0 <= i < j < |s| ==> s[i] < s[j]
  }

  /** The pinned instant is the greatest target among these requests. */
  ghost predicate IsMaximum(at: int, settled: seq<Request>) {
    && (exists i :: 0 <= i < |settled| && Target(settled[i]) == at)
    && (forall i :: 0 <= i < |settled| ==> Target(settled[i]) <= at)
  }

  /** What the clock, the engine and the history have to do with each other when no request
      is under way, settled being the requests that returned nil. */
  ghost predicate Quiet(local: Local, engine: Option<int>, accepted: seq<int>, settled: seq<Request>) {
    && engine == View(local)
    && Increasing(accepted)
    && (local.pinned <==> accepted != [])
    && (local.pinned <==> settled != [])
    && (local.pinned ==> accepted[|accepted| - 1] == local.at && IsMaximum(local.at, settled))
    && (forall i :: 0 <= i < |accepted| ==> exists j :: 0 <= j < |settled| && Target(settled[j]) == accepted[i])
  }

  ghost predicate QuietWith(b: Book, settled: seq<Request>) {
    Quiet(b.local, b.engine, b.accepted, settled)
  }

  /** Nothing has changed since the gate was taken. */
  ghost predicate Untouched(b: Book) {
    QuietWith(b, b.settled) && b.local == b.entry
  }

  /** The engine took r, which was not skipped, while the pair read before. */
  ghost predicate JustAccepted(b: Book, r: Request, before: Local) {
    && |b.accepted| > 0
    && b.engine == Some(Target(r)) == Some(b.accepted[|b.accepted| - 1])
    && !Skips(before, Target(r))
    && Quiet(before, View(before), b.accepted[..|b.accepted| - 1], b.settled)
  }

  ghost predicate ResetTaken(b: Book) {
    b.engine == None && b.accepted == []
  }

  /** What is known while the caller holding the gate is at pc. */
  ghost predicate HolderInv(b: Book, pc: Pc) {
    match pc
    case PinWantsRead(_) => Untouched(b)
    case PinReadMu(_) => Untouched(b)
    case PinReadDoneMu(_, seen) => Untouched(b) && seen == b.local
    case PinDecides(_, seen) => Untouched(b) && seen == b.local
    case PinCalls(r) => Untouched(b) && !Skips(b.local, Target(r))
    case PinAccepted(r) => JustAccepted(b, r, b.local) && b.local == b.entry
    case PinWritesAtMu(r) => JustAccepted(b, r, b.local)
    case PinWritesFlagMu(r) => b.local.at == Target(r) && exists a :: JustAccepted(b, r, Local(b.local.pinned, a))
    case PinUnlocksMu(r) => QuietWith(b, b.settled + [r])
    case PinLeaves(r, refused) => if refused then Untouched(b) else QuietWith(b, b.settled + [r])
    case ResetCalls => Untouched(b)
    case ResetAccepted => ResetTaken(b) && b.local == b.entry
    case ResetWritesFlagMu => ResetTaken(b)
    case ResetWritesAtMu => ResetTaken(b) && !b.local.pinned
    case ResetUnlocksMu => ResetTaken(b) && !b.local.pinned
    case ResetLeaves(refused) => if refused then Untouched(b) else ResetTaken(b) && !b.local.pinned
    case _ => true
  }

  ghost predicate GateHeldByPc(s: State) {
    forall c: nat :: HoldsGate(PcOf(s, c)) <==> s.gate == Some(c)
  }

  ghost predicate MuHeldByPc(s: State) {
    forall c: nat :: HoldsMu(PcOf(s, c)) <==> s.mu == Some(c)
  }

  ghost predicate Owned(s: State) {
    match s.gate
    case None => QuietWith(s.book, s.book.settled)
    case Some(c) => HolderInv(s.book, PcOf(s, c))
  }

  ghost predicate Inv(s: State) {
    GateHeldByPc(s) && MuHeldByPc(s) && Owned(s)
  }

  lemma OthersStay(s: State, m: Move, c: nat)
    requires Step(s, m).Some? && c != m.c
    ensures PcOf(Step(s, m).value, c) == PcOf(s, c)
  {
  }

  /** A lock that changes hands is taken or released by c. */
  ghost predicate Handed(before: Option<nat>, now: Option<nat>, c: nat) {
    || before == now
    || (before == None && now == Some(c))
    || (before == Some(c) && now == None)
  }

  /** The locks follow the program counter of the caller that moves. */
  lemma MoverLocks(s: State, m: Move)
    requires Step(s, m).Some?
    requires HoldsGate(PcOf(s, m.c)) <==> s.gate == Some(m.c)
    requires HoldsMu(PcOf(s, m.c)) <==> s.mu == Some(m.c)
    ensures var s' := Step(s, m).value;
            && (HoldsGate(PcOf(s', m.c)) <==> s'.gate == Some(m.c))
            && (HoldsMu(PcOf(s', m.c)) <==> s'.mu == Some(m.c))
            && Handed(s.gate, s'.gate, m.c)
            && Handed(s.mu, s'.mu, m.c)
  {
  }

  lemma StepKeepsLocks(s: State, m: Move)
    requires GateHeldByPc(s) && MuHeldByPc(s) && Step(s, m).Some?
    ensures GateHeldByPc(Step(s, m).value) && MuHeldByPc(Step(s, m).value)
  {
    MoverLocks(s, m);
    var s' := Step(s, m).value;
    forall c: nat
      ensures HoldsGate(PcOf(s', c)) <==> s'.gate == Some(c)
      ensures HoldsMu(PcOf(s', c)) <==> s'.mu == Some(c)
    {
      if c != m.c {
        OthersStay(s, m, c);
        assert HoldsGate(PcOf(s, c)) <==> s.gate == Some(c);
        assert HoldsMu(PcOf(s, c)) <==> s.mu == Some(c);
      }
    }
  }

  /** Appending a skipped request keeps the clock at the maximum. */
  lemma SkippedSettles(local: Local, engine: Option<int>, accepted: seq<int>, settled: seq<Request>, r: Request)
    requires Quiet(local, engine, accepted, settled) && Skips(local, Target(r))
    ensures Quiet(local, engine, accepted, settled + [r])
  {
    var all := settled + [r];
    var i :| 0 <= i < |settled| && Target(settled[i]) == local.at;
    assert Target(all[i]) == local.at;
    forall k | 0 <= k < |accepted|
      ensures exists j :: 0 <= j < |all| && Target(all[j]) == accepted[k]
    {
      var j :| 0 <= j < |settled| && Target(settled[j]) == accepted[k];
      assert Target(all[j]) == accepted[k];
    }
  }

  /** Publishing an accepted request makes its target the maximum. */
  lemma AcceptedSettles(b: Book, r: Request, before: Local)
    requires JustAccepted(b, r, before)
    ensures Quiet(Local(true, Target(r)), b.engine, b.accepted, b.settled + [r])
  {
    var all, earlier := b.settled + [r], b.accepted[..|b.accepted| - 1];
    assert all[|b.settled|] == r;
    assert b.accepted == earlier + [Target(r)];
    assert before.pinned ==> forall i :: 0 <= i < |earlier| ==> earlier[i] <= before.at;
    forall k | 0 <= k < |b.accepted|
      ensures exists j :: 0 <= j < |all| && Target(all[j]) == b.accepted[k]
    {
      if k < |earlier| {
        assert earlier[k] == b.accepted[k];
        var j :| 0 <= j < |b.settled| && Target(b.settled[j]) == earlier[k];
        assert Target(all[j]) == b.accepted[k];
      } else {
        assert Target(all[|b.settled|]) == b.accepted[k];
      }
    }
  }

  /** What a step of the gate holder has to leave behind. */
  ghost predicate HandsOn(s: State, c: nat) {
    if s.gate == None then QuietWith(s.book, s.book.settled)
    else s.gate == Some(c) && HolderInv(s.book, PcOf(s, c))
  }

  lemma AcceptanceIsRecorded(b: Book, r: Request)
    requires Untouched(b) && !Skips(b.local, Target(r))
    ensures JustAccepted(b.(engine := Some(Target(r)), accepted := b.accepted + [Target(r)]), r, b.local)
  {
    assert (b.accepted + [Target(r)])[..|b.accepted|] == b.accepted;
  }

  lemma InstantIsWritten(b: Book, r: Request)
    requires JustAccepted(b, r, b.local)
    ensures HolderInv(b.(local := b.local.(at := Target(r))), PinWritesFlagMu(r))
  {
    var b' := b.(local := b.local.(at := Target(r)));
    assert Local(b'.local.pinned, b.local.at) == b.local;
    assert JustAccepted(b', r, Local(b'.local.pinned, b.local.at));
  }

  lemma FlagIsWritten(b: Book, r: Request)
    requires HolderInv(b, PinWritesFlagMu(r))
    ensures QuietWith(b.(local := b.local.(pinned := true)), b.settled + [r])
  {
    var a :| JustAccepted(b, r, Local(b.local.pinned, a));
    AcceptedSettles(b, r, Local(b.local.pinned, a));
  }

  /** The steps of PinTo that change the pair, the engine or what is known of them. */
  predicate Decisive(pc: Pc) {
    pc.PinDecides? || pc.PinCalls? || pc.PinWritesAtMu? || pc.PinWritesFlagMu?
  }

  lemma DecisiveHandsOn(s: State, c: nat, refuse: bool)
    requires s.gate == Some(c) && Decisive(PcOf(s, c)) && HolderInv(s.book, PcOf(s, c))
    ensures HandsOn(Pinning(s, c, PcOf(s, c), refuse).value, c)
  {
    var b, pc := s.book, PcOf(s, c);
    if pc.PinDecides? {
      if Skips(pc.seen, Target(pc.r)) {
        SkippedSettles(b.local, b.engine, b.accepted, b.settled, pc.r);
      }
    } else if pc.PinCalls? {
      AcceptanceIsRecorded(b, pc.r);
    } else if pc.PinWritesAtMu? {
      InstantIsWritten(b, pc.r);
    } else {
      FlagIsWritten(b, pc.r);
    }
  }

  lemma PinningHandsOn(s: State, c: nat, refuse: bool)
    requires s.gate == Some(c) && OfPin(PcOf(s, c)) && HolderInv(s.book, PcOf(s, c))
    requires Pinning(s, c, PcOf(s, c), refuse).Some?
    ensures HandsOn(Pinning(s, c, PcOf(s, c), refuse).value, c)
  {
    if Decisive(PcOf(s, c)) {
      DecisiveHandsOn(s, c, refuse);
    }
  }

  lemma ResettingHandsOn(s: State, c: nat, refuse: bool)
    requires s.gate == Some(c) && HoldsGate(PcOf(s, c)) && !OfPin(PcOf(s, c)) && HolderInv(s.book, PcOf(s, c))
    requires Resetting(s, c, PcOf(s, c), refuse).Some?
    ensures HandsOn(Resetting(s, c, PcOf(s, c), refuse).value, c)
  {
  }

  /** Only the gate holder touches the guarded pair, the engine and the history. */
  lemma OthersChangeNothing(s: State, m: Move)
    requires Step(s, m).Some? && !HoldsGate(PcOf(s, m.c))
    ensures var s' := Step(s, m).value;
            || (s'.book == s.book && s'.gate == s.gate)
            || (s'.book == s.book.(entry := s.book.local) && s.gate == None && s'.gate == Some(m.c)
                && (PcOf(s', m.c).PinWantsRead? || PcOf(s', m.c).ResetCalls?))
  {
  }

  lemma StepKeepsInv(s: State, m: Move)
    requires Inv(s) && Step(s, m).Some?
    ensures Inv(Step(s, m).value)
  {
    StepKeepsLocks(s, m);
    var s', pc := Step(s, m).value, PcOf(s, m.c);
    assert HoldsGate(pc) <==> s.gate == Some(m.c);
    if !HoldsGate(pc) {
      OthersChangeNothing(s, m);
      if s.gate.Some? {
        OthersStay(s, m, s.gate.value);
      }
    } else if OfPin(pc) {
      PinningHandsOn(s, m.c, m.refuse);
    } else {
      ResettingHandsOn(s, m.c, m.refuse);
    }
  }

  lemma Reachable(moves: seq<Move>, s: State)
    requires Exec(Step, INIT, moves) == Some(s)
    ensures Inv(s)
  {
    forall p, m | Inv(p) && Step(p, m).Some?
      ensures Inv(Step(p, m).value)
    {
      StepKeepsInv(p, m);
    }
    assert Inv(INIT);
    Invariant(Step, Inv, INIT, moves);
  }

  // ---------- claims about every run ----------

  predicate BetweenAnswerAndPublication(pc: Pc, local: Local) {
    match pc
    case PinAccepted(_) => true
    case PinWritesAtMu(_) => true
    case PinWritesFlagMu(_) => !local.pinned
    case ResetAccepted => local.pinned
    case ResetWritesFlagMu => local.pinned
    case _ => false
  }

  /** The gate holder sits between the engine's answer and its own publication of it. */
  predicate Publishing(s: State) {
    s.gate.Some? && BetweenAnswerAndPublication(PcOf(s, s.gate.value), s.book.local)
  }

  lemma HolderAgreement(s: State, pc: Pc)
    requires HoldsGate(pc) && HolderInv(s.book, pc)
    ensures s.book.engine == View(s.book.local) <==> !BetweenAnswerAndPublication(pc, s.book.local)
  {
    match pc
    case PinAccepted(r) =>
    case PinWritesAtMu(r) =>
    case PinWritesFlagMu(r) =>
    case _ =>
  }

  /** The clock and the engine agree except exactly while an answer waits to be published. */
  lemma Agreement(moves: seq<Move>, s: State)
    requires Exec(Step, INIT, moves) == Some(s)
    ensures s.book.engine == View(s.book.local) <==> !Publishing(s)
  {
    Reachable(moves, s);
    if s.gate.Some? {
      assert HoldsGate(PcOf(s, s.gate.value));
      HolderAgreement(s, PcOf(s, s.gate.value));
    }
  }

  /** A caller reading the pair never sees it half written: what it sees is what the engine
      has, or had before an answer not yet published. */
  lemma ReadersSeeWholePairs(moves: seq<Move>, s: State, c: nat)
    requires Exec(Step, INIT, moves) == Some(s)
    requires PcOf(s, c).ReadMu?
    ensures s.book.engine == View(s.book.local)
         || (Publishing(s) && s.book.local == s.book.entry)
  {
    Reachable(moves, s);
    assert HoldsMu(PcOf(s, c));
    assert s.mu == Some(c);
    if s.gate.Some? {
      assert HoldsGate(PcOf(s, s.gate.value));
      assert HoldsMu(PcOf(s, s.gate.value)) ==> s.mu == s.gate;
    }
  }

  /** A refused pin or reset leaves the clock and the engine as it found them. */
  lemma RefusalChangesNothing(moves: seq<Move>, s: State, c: nat)
    requires Exec(Step, INIT, moves) == Some(s)
    requires PcOf(s, c) == ResetLeaves(true) || (PcOf(s, c).PinLeaves? && PcOf(s, c).refused)
    ensures s.gate == Some(c)
    ensures s.book.local == s.book.entry && s.book.engine == View(s.book.entry)
  {
    Reachable(moves, s);
    assert HoldsGate(PcOf(s, c));
  }

  /** Whenever the gate is free the clock is pinned exactly when some request returned nil
      since the last reset, and then at the greatest target among those requests. */
  lemma SettlesAtMaximum(moves: seq<Move>, s: State)
    requires Exec(Step, INIT, moves) == Some(s) && s.gate == None
    ensures s.book.local.pinned <==> s.book.settled != []
    ensures s.book.local.pinned ==> IsMaximum(s.book.local.at, s.book.settled) && s.book.engine == Some(s.book.local.at)
  {
    Reachable(moves, s);
  }

  /** What is settled is at or before n, or a wait that read n and is no longer than longest. */
  predicate OverlapsAt(r: Request, n: int, longest: int) {
    Target(r) <= n || (r.Wait? && r.base == n && r.d <= longest)
  }

  /** Waits that read the same instant n settle at n plus the longest of them, whatever their
      number and order, and however the clock came to n. */
  lemma OverlappingWaitsDoNotSum(moves: seq<Move>, s: State, n: int, longest: int)
    requires Exec(Step, INIT, moves) == Some(s) && s.gate == None && longest > 0
    requires forall i :: 0 <= i < |s.book.settled| ==> OverlapsAt(s.book.settled[i], n, longest)
    requires Wait(n, longest) in s.book.settled
    ensures s.book.local == Local(true, n + longest)
  {
    SettlesAtMaximum(moves, s);
    var j :| 0 <= j < |s.book.settled| && Target(s.book.settled[j]) == s.book.local.at;
    assert OverlapsAt(s.book.settled[j], n, longest);
    assert Target(Wait(n, longest)) == n + longest;
  }

  /** Pinned from the floor on, since the given number of resets. */
  ghost predicate AtLeast(s: State, floor: int, resets: nat) {
    && Inv(s) && s.book.resets >= resets
    && (s.book.resets == resets ==> s.book.local.pinned && s.book.local.at >= floor)
  }

  lemma HolderNeverMovesBack(s: State, m: Move)
    requires s.gate == Some(m.c) && HoldsGate(PcOf(s, m.c)) && HolderInv(s.book, PcOf(s, m.c))
    requires Step(s, m).Some? && s.book.local.pinned
    ensures var s' := Step(s, m).value;
            || s'.book.resets == s.book.resets + 1
            || (s'.book.resets == s.book.resets && s'.book.local.pinned && s'.book.local.at >= s.book.local.at)
  {
    match PcOf(s, m.c)
    case PinWritesAtMu(r) =>
    case ResetWritesFlagMu =>
    case _ =>
  }

  lemma StepNeverMovesBack(s: State, m: Move, floor: int, resets: nat)
    requires AtLeast(s, floor, resets) && Step(s, m).Some?
    ensures AtLeast(Step(s, m).value, floor, resets)
  {
    StepKeepsInv(s, m);
    assert HoldsGate(PcOf(s, m.c)) <==> s.gate == Some(m.c);
    if !HoldsGate(PcOf(s, m.c)) {
      OthersChangeNothing(s, m);
    } else {
      ResetsOnlyGrow(s, m);
      if s.book.resets == resets {
        HolderNeverMovesBack(s, m);
      }
    }
  }

  lemma ResetsOnlyGrow(s: State, m: Move)
    requires Step(s, m).Some?
    ensures Step(s, m).value.book.resets >= s.book.resets
  {
  }

  lemma StaysAtLeast(s: State, moves: seq<Move>, s': State)
    requires Inv(s) && s.book.local.pinned
    requires Exec(Step, s, moves) == Some(s') && s'.book.resets == s.book.resets
    ensures s'.book.local.pinned && s.book.local.at <= s'.book.local.at
  {
    var floor, resets := s.book.local.at, s.book.resets;
    var inv := (x: State) => AtLeast(x, floor, resets);
    forall p, m | inv(p) && Step(p, m).Some?
      ensures inv(Step(p, m).value)
    {
      StepNeverMovesBack(p, m, floor, resets);
    }
    Invariant(Step, inv, s, moves);
  }

  /** Once pinned, the clock never moves back before a reset. */
  lemma PinnedNeverMovesBack(moves: seq<Move>, s: State, later: seq<Move>, s': State)
    requires Exec(Step, INIT, moves) == Some(s) && s.book.local.pinned
    requires Exec(Step, s, later) == Some(s') && s'.book.resets == s.book.resets
    ensures s'.book.local.pinned && s.book.local.at <= s'.book.local.at
  {
    Reachable(moves, s);
    StaysAtLeast(s, later, s');
  }

  /** Exactly when a step moves the reading back, for a caller to whom live time reads live:
      a pin published on an unpinned clock after live time passed its target, or a reset
      published while live time is behind the pinned instant. */
  lemma ReadingMovesBackIff(moves: seq<Move>, s: State, m: Move, live: int)
    requires Exec(Step, INIT, moves) == Some(s) && Step(s, m).Some?
    ensures Reading(Step(s, m).value.book.local, live) < Reading(s.book.local, live) <==>
            || (PcOf(s, m.c).PinWritesFlagMu? && !s.book.local.pinned && Target(PcOf(s, m.c).r) < live)
            || (PcOf(s, m.c).ResetWritesFlagMu? && s.book.local.pinned && live < s.book.local.at)
  {
    Reachable(moves, s);
    assert HoldsGate(PcOf(s, m.c)) <==> s.gate == Some(m.c);
    if HoldsGate(PcOf(s, m.c)) {
      HolderMovesBackIff(s, m, live);
    } else {
      OthersChangeNothing(s, m);
    }
  }

  lemma HolderMovesBackIff(s: State, m: Move, live: int)
    requires HoldsGate(PcOf(s, m.c)) && HolderInv(s.book, PcOf(s, m.c)) && Step(s, m).Some?
    ensures Reading(Step(s, m).value.book.local, live) < Reading(s.book.local, live) <==>
            || (PcOf(s, m.c).PinWritesFlagMu? && !s.book.local.pinned && Target(PcOf(s, m.c).r) < live)
            || (PcOf(s, m.c).ResetWritesFlagMu? && s.book.local.pinned && live < s.book.local.at)
  {
    if OfPin(PcOf(s, m.c)) {
      assert Step(s, m) == Pinning(s, m.c, PcOf(s, m.c), m.refuse);
    } else {
      assert Step(s, m) == Resetting(s, m.c, PcOf(s, m.c), m.refuse);
    }
  }

  /** The clock contract: from the moment a wait returned nil until the next reset, every
      reading is at least the instant the wait read plus its duration. */
  lemma WaitPassesItsDuration(moves: seq<Move>, s: State, i: nat, later: seq<Move>, s': State)
    requires Exec(Step, INIT, moves) == Some(s) && s.gate == None
    requires i < |s.book.settled| && s.book.settled[i].Wait?
    requires Exec(Step, s, later) == Some(s') && s'.book.resets == s.book.resets
    ensures forall live :: Reading(s'.book.local, live) >= s.book.settled[i].base + s.book.settled[i].d
  {
    Reachable(moves, s);
    SettlesAtMaximum(moves, s);
    assert Target(s.book.settled[i]) <= s.book.local.at;
    StaysAtLeast(s, later, s');
  }

  // ---------- the clock contract of a polling loop ----------

  predicate HasRequest(pc: Pc) {
    pc.PinWantsGate? || OfPin(pc)
  }

  /** A wait under way at pc started from x or later. */
  predicate AsksFrom(pc: Pc, x: int) {
    && (pc.ReadDoneMu? ==> pc.now >= x)
    && (HasRequest(pc) && pc.r.Wait? ==> pc.r.base >= x)
  }

  predicate ReturnsNil(pc: Pc) {
    pc.PinLeaves? && pc.r.Wait? && !pc.refused
  }

  ghost predicate WaitsFrom(s: State, c: nat, x: int, resets: nat) {
    && AtLeast(s, x, resets)
    && (s.book.resets == resets ==> AsksFrom(PcOf(s, c), x))
  }

  lemma OwnStepAsksFrom(s: State, m: Move, x: int)
    requires Step(s, m).Some? && AsksFrom(PcOf(s, m.c), x)
    requires s.book.local.pinned && s.book.local.at >= x
    ensures AsksFrom(PcOf(Step(s, m).value, m.c), x)
  {
  }

  lemma StepWaitsFrom(s: State, m: Move, c: nat, x: int, resets: nat)
    requires WaitsFrom(s, c, x, resets) && Step(s, m).Some?
    ensures WaitsFrom(Step(s, m).value, c, x, resets)
  {
    StepNeverMovesBack(s, m, x, resets);
    ResetsOnlyGrow(s, m);
    if s.book.resets == resets {
      if m.c == c {
        OwnStepAsksFrom(s, m, x);
      } else {
        OthersStay(s, m, c);
      }
    }
  }

  /** A wait about to return nil leaves the clock pinned at its target or later. */
  lemma NilWaitIsPinned(s: State, c: nat)
    requires Inv(s) && ReturnsNil(PcOf(s, c))
    ensures s.book.local.pinned && s.book.local.at >= Target(PcOf(s, c).r)
  {
    var r := PcOf(s, c).r;
    assert HoldsGate(PcOf(s, c)) && s.gate == Some(c);
    var all := s.book.settled + [r];
    assert QuietWith(s.book, all) && all[|s.book.settled|] == r;
  }

  /** What a polling loop expects of the clock it paces itself by: a wait of c that returns
      nil has left every reading at least its duration past x. */
  predicate Outlasts(s: State, p: State, c: nat, x: int) {
    p.book.resets == s.book.resets && ReturnsNil(PcOf(p, c)) ==>
      p.book.local.pinned && p.book.local.at >= x + PcOf(p, c).r.d
  }

  /** Live time reads x or later throughout. */
  predicate LiveFrom(moves: seq<Move>, x: int) {
    forall m <- moves :: m.Advance? ==> m.live >= x
  }

  predicate LiveIs(moves: seq<Move>, x: int) {
    forall m <- moves :: m.Advance? ==> m.live == x
  }

  /** Caller c, idle in s, may count on that for what it read there, with no reset in between
      and live time not moving back. */
  ghost predicate KeepsContract(s: State, c: nat, x: int) {
    forall later: seq<Move> :: Exec(Step, s, later).Some? && LiveFrom(later, x) ==>
      Outlasts(s, Exec(Step, s, later).value, c, x)
  }

  /** A caller that read a pinned clock at n finds it at n + d or later when its wait of d
      returns nil, whatever the others do short of a reset. */
  lemma PinnedWaitOutlasts(moves: seq<Move>, s: State, c: nat, later: seq<Move>, p: State)
    requires Exec(Step, INIT, moves) == Some(s) && s.book.local.pinned && PcOf(s, c) == Idle
    requires Exec(Step, s, later) == Some(p)
    ensures Outlasts(s, p, c, s.book.local.at)
  {
    Reachable(moves, s);
    var x, resets := s.book.local.at, s.book.resets;
    var inv := (q: State) => WaitsFrom(q, c, x, resets);
    forall q, m | inv(q) && Step(q, m).Some?
      ensures inv(Step(q, m).value)
    {
      StepWaitsFrom(q, m, c, x, resets);
    }
    assert inv(s);
    Invariant(Step, inv, s, later);
    assert WaitsFrom(p, c, x, resets);
    if p.book.resets == resets && ReturnsNil(PcOf(p, c)) {
      NilWaitIsPinned(p, c);
    }
  }

  /** So on a pinned clock, from one deadline check of a loop to the next, the reading grows
      by the wait in between at least: what Polling.Paced asks for. */
  lemma NextCheckIsLater(
      moves: seq<Move>, s: State, c: nat, later: seq<Move>, p: State, call: seq<Move>, q: State, live: int)
    requires Exec(Step, INIT, moves) == Some(s) && s.book.local.pinned && PcOf(s, c) == Idle
    requires Exec(Step, s, later) == Some(p) && ReturnsNil(PcOf(p, c))
    requires Exec(Step, p, call) == Some(q) && q.book.resets == p.book.resets == s.book.resets
    ensures q.book.local.pinned
    ensures Reading(q.book.local, live) >= Reading(s.book.local, live) + PcOf(p, c).r.d
  {
    PinnedWaitOutlasts(moves, s, c, later, p);
    Concatenation(Step, INIT, moves, later);
    Reachable(moves + later, p);
    StaysAtLeast(p, call, q);
  }

  /** Exactly when a caller may count on the contract, while no request is under way: when the
      clock it reads is pinned. A wait from an unpinned reading may end before its duration
      has passed, with live time never moving back and no reset. */
  lemma ContractIff(moves: seq<Move>, s: State, c: nat, live: int)
    requires Exec(Step, INIT, moves) == Some(s) && s.gate == None && PcOf(s, c) == Idle
    ensures KeepsContract(s, c, Reading(s.book.local, live)) <==> s.book.local.pinned
  {
    if s.book.local.pinned {
      forall later: seq<Move> | Exec(Step, s, later).Some?
        ensures Outlasts(s, Exec(Step, s, later).value, c, s.book.local.at)
      {
        PinnedWaitOutlasts(moves, s, c, later, Exec(Step, s, later).value);
      }
    } else {
      Reachable(moves, s);
      var later, p := UnpinnedWaitFallsShort(s, c, live);
      assert !Outlasts(s, Exec(Step, s, later).value, c, live);
    }
  }

  /** A strictly increasing sequence has no more entries than the set it draws from. */
  lemma {:induction false} IncreasingIsShort(s: seq<int>, from: set<int>)
    requires Increasing(s) && forall i :: 0 <= i < |s| ==> s[i] in from
    ensures |s| <= |from|
    decreases |s|
  {
    if s != [] {
      var last := s[|s| - 1];
      IncreasingIsShort(s[..|s| - 1], from - {last});
    }
  }

  function Targets(settled: seq<Request>): set<int> {
    set i | 0 <= i < |settled| :: Target(settled[i])
  }

  /** The engine took pins with strictly increasing targets, and no more of them than there
      are distinct targets among the requests that returned nil. */
  lemma RequestsCollapse(moves: seq<Move>, s: State)
    requires Exec(Step, INIT, moves) == Some(s) && s.gate == None
    ensures Increasing(s.book.accepted)
    ensures |s.book.accepted| <= |Targets(s.book.settled)|
    ensures forall t :: s.book.settled != [] && Targets(s.book.settled) <= {t} ==> s.book.accepted == [t]
  {
    Reachable(moves, s);
    var from := Targets(s.book.settled);
    forall i | 0 <= i < |s.book.accepted|
      ensures s.book.accepted[i] in from
    {
      var j :| 0 <= j < |s.book.settled| && Target(s.book.settled[j]) == s.book.accepted[i];
    }
    IncreasingIsShort(s.book.accepted, from);
    forall t | s.book.settled != [] && from <= {t}
      ensures s.book.accepted == [t]
    {
      assert s.book.accepted[0] in from;
      assert from == {t} && |from| == 1;
    }
  }

  // ---------- particular runs ----------

  lemma SoloEnters(s: State, r: Request, go: Move) returns (s': State)
    requires s.gate == None && s.mu == None && PcOf(s, go.c) == PinWantsGate(r) && go.Advance?
    ensures Exec(Step, s, Repeat(go, 2)) == Some(s')
    ensures s' == Writes(s.(gate := Some(go.c), mu := Some(go.c), callers := s'.callers), go.c, PinReadMu(r),
                         s.book.(entry := s.book.local))
  {
    assert Repeat(go, 0) == [];
    s' := Again(Step, s, go, 0);
    s' := Again(Step, s, go, 1);
  }

  lemma SoloDecides(s: State, r: Request, go: Move) returns (s': State)
    requires PcOf(s, go.c) == PinReadMu(r) && go.Advance?
    ensures Exec(Step, s, Repeat(go, 3)) == Some(s')
    ensures s' == Goes(s.(mu := None, callers := s'.callers), go.c,
                       if Skips(s.book.local, Target(r)) then PinLeaves(r, false) else PinCalls(r))
  {
    var p := SoloLooksInside(s, r, go);
    s' := DeciderDecides(p, r, s.book.local, go);
    OneMove(p, go, s');
    Appended(s, go, 2, p, 1, s');
  }

  lemma DeciderDecides(s: State, r: Request, seen: Local, go: Move) returns (s': State)
    requires PcOf(s, go.c) == PinDecides(r, seen) && go.Advance?
    ensures Step(s, go) == Some(s')
    ensures s' == Goes(s, go.c, if Skips(seen, Target(r)) then PinLeaves(r, false) else PinCalls(r))
  {
    s' := Step(s, go).value;
  }

  lemma OneMove(s: State, go: Move, s': State)
    requires Step(s, go) == Some(s')
    ensures Exec(Step, s, Repeat(go, 1)) == Some(s')
  {
    assert Repeat(go, 1)[..0] == [];
  }

  lemma SoloLooksInside(s: State, r: Request, go: Move) returns (s': State)
    requires PcOf(s, go.c) == PinReadMu(r) && go.Advance?
    ensures Exec(Step, s, Repeat(go, 2)) == Some(s')
    ensures s' == Goes(s.(mu := None, callers := s'.callers), go.c, PinDecides(r, s.book.local))
  {
    assert Repeat(go, 0) == [];
    s' := Again(Step, s, go, 0);
    s' := Again(Step, s, go, 1);
  }

  lemma Appended(s: State, go: Move, m: nat, p: State, n: nat, s': State)
    requires Exec(Step, s, Repeat(go, m)) == Some(p) && Exec(Step, p, Repeat(go, n)) == Some(s')
    ensures Exec(Step, s, Repeat(go, m + n)) == Some(s')
  {
    Concatenation(Step, s, Repeat(go, m), Repeat(go, n));
    assert Repeat(go, m) + Repeat(go, n) == Repeat(go, m + n);
  }

  lemma SoloCalls(s: State, r: Request, go: Move) returns (s': State)
    requires PcOf(s, go.c) == PinCalls(r) && go.Advance? && !go.refuse
    ensures Exec(Step, s, Repeat(go, 1)) == Some(s')
    ensures s' == Writes(s, go.c, PinAccepted(r),
                         s.book.(engine := Some(Target(r)), accepted := s.book.accepted + [Target(r)]))
  {
    assert Repeat(go, 0) == [];
    s' := Again(Step, s, go, 0);
  }

  lemma SoloWrites(s: State, r: Request, go: Move) returns (s': State)
    requires s.mu == None && PcOf(s, go.c) == PinAccepted(r) && go.Advance?
    ensures Exec(Step, s, Repeat(go, 2)) == Some(s')
    ensures s' == Writes(s.(mu := Some(go.c), callers := s'.callers), go.c, PinWritesFlagMu(r),
                         s.book.(local := s.book.local.(at := Target(r))))
  {
    assert Repeat(go, 0) == [];
    s' := Again(Step, s, go, 0);
    s' := Again(Step, s, go, 1);
  }

  lemma SoloAccepted(s: State, r: Request, go: Move) returns (s': State)
    requires s.mu == None && PcOf(s, go.c) == PinCalls(r) && go.Advance? && !go.refuse
    ensures Exec(Step, s, Repeat(go, 3)) == Some(s')
    ensures s' == Writes(s.(mu := Some(go.c), callers := s'.callers), go.c, PinWritesFlagMu(r),
                         s.book.(local := s.book.local.(at := Target(r)), engine := Some(Target(r)),
                                 accepted := s.book.accepted + [Target(r)]))
  {
    hide Step;
    var p := SoloCalls(s, r, go);
    s' := SoloWrites(p, r, go);
    Appended(s, go, 1, p, 2, s');
  }

  lemma SoloPublished(s: State, r: Request, go: Move) returns (s': State)
    requires PcOf(s, go.c) == PinWritesFlagMu(r) && go.Advance?
    ensures Exec(Step, s, Repeat(go, 2)) == Some(s')
    ensures s' == Writes(s.(mu := None, callers := s'.callers), go.c, PinLeaves(r, false),
                          s.book.(local := s.book.local.(pinned := true)))
  {
    assert Repeat(go, 0) == [];
    s' := Again(Step, s, go, 0);
    s' := Again(Step, s, go, 1);
  }

  /** From the decision on: the request is skipped, refused, or accepted and published. */
  lemma SoloSettles(s: State, r: Request, go: Move) returns (n: nat, s': State)
    requires s.mu == None && go.Advance?
    requires PcOf(s, go.c) == if Skips(s.book.local, Target(r)) then PinLeaves(r, false) else PinCalls(r)
    ensures Exec(Step, s, Repeat(go, n)) == Some(s')
    ensures s'.book.local == Outcome(s.book.local, Target(r), go.refuse)
    ensures s'.book.resets == s.book.resets && s'.mu == None
    ensures PcOf(s', go.c) == PinLeaves(r, go.refuse && !Skips(s.book.local, Target(r)))
    ensures s'.book.settled == s.book.settled
    ensures s'.book.engine == if s'.book.local == s.book.local then s.book.engine else View(s'.book.local)
  {
    assert Repeat(go, 0) == [];
    n, s' := 0, s;
    if !Skips(s.book.local, Target(r)) {
      if go.refuse {
        s' := Again(Step, s, go, 0);
        n := 1;
      } else {
        var q := SoloAccepted(s, r, go);
        s' := SoloPublished(q, r, go);
        Appended(s, go, 3, q, 2, s');
        n := 5;
      }
    }
  }

  /** The pair a call of PinTo leaves, run alone. */
  function Outcome(l: Local, target: int, refuse: bool): Local {
    if Skips(l, target) || refuse then l else Local(true, target)
  }

  lemma SoloLeaves(s: State, r: Request, refused: bool, go: Move) returns (s': State)
    requires PcOf(s, go.c) == PinLeaves(r, refused) && go.Advance?
    ensures Exec(Step, s, Repeat(go, 1)) == Some(s')
    ensures s' == Writes(s.(gate := None), go.c, Idle,
                         s.book.(settled := if refused then s.book.settled else s.book.settled + [r]))
  {
    assert Repeat(go, 0) == [];
    s' := Again(Step, s, go, 0);
  }

  /** Taking the gate and deciding. */
  lemma SoloArrives(s: State, r: Request, go: Move) returns (s': State)
    requires s.gate == None && s.mu == None && PcOf(s, go.c) == PinWantsGate(r) && go.Advance?
    ensures Exec(Step, s, Repeat(go, 5)) == Some(s')
    ensures s'.book == s.book.(entry := s.book.local) && s'.gate == Some(go.c) && s'.mu == None
    ensures PcOf(s', go.c) == if Skips(s.book.local, Target(r)) then PinLeaves(r, false) else PinCalls(r)
  {
    var p := SoloEnters(s, r, go);
    s' := SoloDecides(p, r, go);
    Appended(s, go, 2, p, 3, s');
  }

  /** From the decision to the return. */
  lemma SoloReturns(s: State, r: Request, go: Move) returns (n: nat, s': State)
    requires s.mu == None && go.Advance?
    requires PcOf(s, go.c) == if Skips(s.book.local, Target(r)) then PinLeaves(r, false) else PinCalls(r)
    ensures Exec(Step, s, Repeat(go, n)) == Some(s')
    ensures s'.book.local == Outcome(s.book.local, Target(r), go.refuse)
    ensures s'.book.settled == if go.refuse && !Skips(s.book.local, Target(r)) then s.book.settled
                               else s.book.settled + [r]
    ensures PcOf(s', go.c) == Idle && s'.gate == None && s'.mu == None
    ensures s'.book.resets == s.book.resets
    ensures s'.book.engine == if s'.book.local == s.book.local then s.book.engine else View(s'.book.local)
  {
    var m, t := SoloSettles(s, r, go);
    s' := SoloLeaves(t, r, go.refuse && !Skips(s.book.local, Target(r)), go);
    n := m + 1;
    Appended(s, go, m, t, 1, s');
  }

  /** A caller entering PinTo and left alone with a free clock does what the postcondition
      of EngineClocks.EngineClock.PinTo says. */
  lemma SoloPinTo(s: State, r: Request, go: Move) returns (n: nat, s': State)
    requires s.gate == None && s.mu == None && PcOf(s, go.c) == PinWantsGate(r) && go.Advance?
    ensures Exec(Step, s, Repeat(go, n)) == Some(s')
    ensures s'.book.local == Outcome(s.book.local, Target(r), go.refuse)
    ensures s'.book.settled == if go.refuse && !Skips(s.book.local, Target(r)) then s.book.settled
                               else s.book.settled + [r]
    ensures PcOf(s', go.c) == Idle && s'.gate == None && s'.mu == None
    ensures s'.book.resets == s.book.resets
    ensures s.book.engine == View(s.book.local) ==> s'.book.engine == View(s'.book.local)
  {
    var q := SoloArrives(s, r, go);
    var m;
    m, s' := SoloReturns(q, r, go);
    n := 5 + m;
    Appended(s, go, 5, q, m, s');
  }

  lemma {:induction false} AboveAll(ids: set<nat>) returns (bound: nat)
    ensures forall k <- ids :: k < bound
  {
    bound := 0;
    if ids != {} {
      var k :| k in ids;
      var rest := AboveAll(ids - {k});
      bound := if rest <= k then k + 1 else rest;
      forall j <- ids
        ensures j < bound
      {
        assert j == k || j in ids - {k};
      }
    }
  }

  /** Some other caller is idle. */
  lemma AnotherIdle(s: State, c: nat) returns (other: nat)
    ensures other != c && PcOf(s, other) == Idle
  {
    other := AboveAll(s.callers.Keys + {c});
    assert c in s.callers.Keys + {c};
  }

  lemma {:induction false} OthersStayThroughout(s: State, go: Move, n: nat, s': State, c: nat)
    requires Exec(Step, s, Repeat(go, n)) == Some(s') && c != go.c
    ensures PcOf(s', c) == PcOf(s, c)
  {
    if n > 0 {
      assert Repeat(go, n)[..n - 1] == Repeat(go, n - 1);
      var p := Exec(Step, s, Repeat(go, n - 1)).value;
      OthersStayThroughout(s, go, n - 1, p, c);
      OthersStay(p, go, c);
    }
  }

  lemma ReaderReads(s: State, h: nat, live: int)
    requires PcOf(s, h).ReadMu?
    ensures var pc := ReadDoneMu(PcOf(s, h).d, Reading(s.book.local, live));
            Step(s, Advance(h, live, false)) == Some(Goes(s, h, pc))
  {
  }

  lemma ReaderLeaves(s: State, h: nat, live: int) returns (pc: Pc)
    requires PcOf(s, h).ReadDoneMu?
    ensures Step(s, Advance(h, live, false)) == Some(Goes(s.(mu := None), h, pc))
  {
    pc := if PcOf(s, h).d.Some? then PinWantsGate(Wait(PcOf(s, h).now, PcOf(s, h).d.value)) else Idle;
  }

  /** A caller reading the clock, if any, finishes; nothing else changes. */
  lemma ReaderFinishes(s: State, live: int) returns (moves: seq<Move>, s': State)
    requires MuHeldByPc(s) && GateHeldByPc(s)
    ensures Exec(Step, s, moves) == Some(s') && LiveIs(moves, live)
    ensures s'.gate == s.gate && s'.book == s.book && s'.mu == if s.mu == s.gate then s.mu else None
    ensures forall c: nat :: PcOf(s, c) == Idle || s.gate == Some(c) ==> PcOf(s', c) == PcOf(s, c)
  {
    moves, s' := [], s;
    if s.mu.Some? && s.mu != s.gate {
      var h := s.mu.value;
      assert HoldsMu(PcOf(s, h)) && !HoldsGate(PcOf(s, h));
      if PcOf(s, h).ReadMu? {
        ReaderReads(s, h, live);
        moves, s' := Extend(Step, s, [], Advance(h, live, false));
      }
      var pc := ReaderLeaves(s', h, live);
      moves, s' := Extend(Step, s, moves, Advance(h, live, false));
    }
  }

  /** One request, from a free clock: begun by an idle caller and left alone. */
  lemma SoloRequest(s: State, to: int, go: Move) returns (moves: seq<Move>, s': State)
    requires s.gate == None && s.mu == None && PcOf(s, go.c) == Idle && go.Advance? && !go.refuse
    ensures Exec(Step, s, moves) == Some(s') && LiveFrom(moves, go.live)
    ensures s'.book.local == Outcome(s.book.local, to, false) && s'.book.resets == s.book.resets
    ensures s'.gate == None && s'.mu == None
    ensures forall c :: c != go.c ==> PcOf(s', c) == PcOf(s, c)
  {
    var begun, b := Extend(Step, s, [], Begin(go.c, PinTo(to)));
    var n;
    n, s' := SoloPinTo(b, Pin(to), go);
    moves := begun + Repeat(go, n);
    Concatenation(Step, s, begun, Repeat(go, n));
    forall c | c != go.c
      ensures PcOf(s', c) == PcOf(s, c)
    {
      OthersStayThroughout(b, go, n, s', c);
    }
  }

  /** One wait of length 1 on a pinned free clock, up to its return. */
  lemma SoloWait(s: State, go: Move) returns (moves: seq<Move>, s': State)
    requires s.gate == None && s.mu == None && s.book.local.pinned && PcOf(s, go.c) == Idle
    requires go.Advance? && !go.refuse
    ensures Exec(Step, s, moves) == Some(s') && LiveFrom(moves, go.live)
    ensures PcOf(s', go.c) == PinLeaves(Wait(s.book.local.at, 1), false)
    ensures s'.book.local.at == s.book.local.at + 1 && s'.book.resets == s.book.resets
  {
    var r := Wait(s.book.local.at, 1);
    hide Step;
    var first, p := SleeperAsks(s, 1, go);
    var q := SoloArrives(p, r, go);
    var n, t := SoloSettles(q, r, go);
    Appended(p, go, 5, q, n, t);
    Concatenation(Step, s, first, Repeat(go, 5 + n));
    moves, s' := first + Repeat(go, 5 + n), t;
  }

  /** From an unpinned reading of live: another caller pins the clock one before it, and the
      wait of 1 that follows ends at live, not after it. */
  lemma UnpinnedWaitFallsShort(s: State, c: nat, live: int) returns (moves: seq<Move>, p: State)
    requires Inv(s) && s.gate == None && !s.book.local.pinned && PcOf(s, c) == Idle
    ensures Exec(Step, s, moves) == Some(p) && LiveFrom(moves, live)
    ensures p.book.resets == s.book.resets && ReturnsNil(PcOf(p, c)) && !Outlasts(s, p, c, live)
  {
    var other := AnotherIdle(s, c);
    var a, q := ReaderFinishes(s, live);
    var b, t := SoloRequest(q, live - 1, Advance(other, live, false));
    var w;
    w, p := SoloWait(t, Advance(c, live, false));
    Concatenation(Step, s, a, b);
    Concatenation(Step, s, a + b, w);
    moves := a + b + w;
  }

  // ---------- the contract while requests are under way ----------

  /** The engine took a reset that is not published yet. */
  predicate ResetPending(s: State) {
    s.gate.Some? && (PcOf(s, s.gate.value).ResetAccepted? || PcOf(s, s.gate.value).ResetWritesFlagMu?)
  }

  /** The steps a gate holder has left to its return. */
  function Left(pc: Pc): nat {
    match pc
    case PinWantsRead(_) => 10
    case PinReadMu(_) => 9
    case PinReadDoneMu(_, _) => 8
    case PinDecides(_, _) => 7
    case PinCalls(_) => 6
    case PinAccepted(_) => 5
    case PinWritesAtMu(_) => 4
    case PinWritesFlagMu(_) => 3
    case PinUnlocksMu(_) => 2
    case PinLeaves(_, _) => 1
    case ResetCalls => 6
    case ResetWritesAtMu => 3
    case ResetUnlocksMu => 2
    case ResetLeaves(_) => 1
    case _ => 0
  }

  /** The pending target, if any, and whatever is pinned, lie below this instant. */
  predicate Below(s: State, pc: Pc, live: int) {
    && (s.book.local.pinned ==> s.book.local.at < live)
    && (HasRequest(pc) ==> Target(pc.r) < live)
    && (pc.PinWritesFlagMu? ==> s.book.local.at < live)
    && (pc.ResetWritesAtMu? ==> !s.book.local.pinned)
  }

  /** The gate holder at h is at pc, owns the inner lock or finds it free, and has nothing
      from live on to publish. */
  predicate Finishing(s: State, h: nat, live: int) {
    var pc := PcOf(s, h);
    && s.gate == Some(h) && HoldsGate(pc) && !ResetPending(s) && Below(s, pc, live)
    && s.mu == if HoldsMu(pc) then Some(h) else None
  }

  predicate Finished(s: State, live: int) {
    s.gate == None && s.mu == None && (s.book.local.pinned ==> s.book.local.at < live)
  }

  predicate FinishesOn(s: State, t: State, h: nat, live: int) {
    && t.book.resets == s.book.resets
    && (Finished(t, live) || (Finishing(t, h, live) && Left(PcOf(t, h)) < Left(PcOf(s, h))))
  }

  lemma PinnerSteps(s: State, go: Move)
    requires go.Advance? && go.refuse && Finishing(s, go.c, go.live) && OfPin(PcOf(s, go.c))
    ensures Pinning(s, go.c, PcOf(s, go.c), true).Some?
    ensures FinishesOn(s, Pinning(s, go.c, PcOf(s, go.c), true).value, go.c, go.live)
  {
  }

  lemma ResetterSteps(s: State, go: Move)
    requires go.Advance? && go.refuse && Finishing(s, go.c, go.live) && !OfPin(PcOf(s, go.c))
    ensures Resetting(s, go.c, PcOf(s, go.c), true).Some?
    ensures FinishesOn(s, Resetting(s, go.c, PcOf(s, go.c), true).value, go.c, go.live)
  {
  }

  lemma HolderSteps(s: State, go: Move)
    requires go.Advance? && go.refuse && Finishing(s, go.c, go.live)
    ensures Step(s, go).Some? && FinishesOn(s, Step(s, go).value, go.c, go.live)
  {
    if OfPin(PcOf(s, go.c)) {
      PinnerSteps(s, go);
    } else {
      ResetterSteps(s, go);
    }
  }

  /** The gate holder, left alone and refused whatever it has yet to ask, returns. */
  lemma {:induction false} HolderReturns(s: State, go: Move, c: nat) returns (moves: seq<Move>, s': State)
    requires go.Advance? && go.refuse && Finishing(s, go.c, go.live) && PcOf(s, c) == Idle
    ensures Exec(Step, s, moves) == Some(s') && LiveFrom(moves, go.live)
    ensures Finished(s', go.live) && s'.book.resets == s.book.resets && PcOf(s', c) == Idle
    decreases Left(PcOf(s, go.c))
  {
    HolderSteps(s, go);
    OthersStay(s, go, c);
    moves, s' := Extend(Step, s, [], go);
    if !Finished(s', go.live) {
      var t, rest := s', [];
      rest, s' := HolderReturns(t, go, c);
      Concatenation(Step, s, [go], rest);
      moves := [go] + rest;
    }
  }

  /** Every request under way finishes, the clock ending unpinned or pinned before live. */
  lemma EveryoneFinishes(s: State, c: nat, live: int) returns (moves: seq<Move>, s': State)
    requires Inv(s) && PcOf(s, c) == Idle && !ResetPending(s)
    requires s.gate.Some? ==> Below(s, PcOf(s, s.gate.value), live)
    requires s.gate == None ==> !s.book.local.pinned
    ensures Exec(Step, s, moves) == Some(s') && LiveFrom(moves, live)
    ensures Finished(s', live) && s'.book.resets == s.book.resets && PcOf(s', c) == Idle
  {
    var reader, p := ReaderFinishes(s, live);
    moves, s' := reader, p;
    if s.gate.Some? {
      var h := s.gate.value;
      assert HoldsGate(PcOf(s, h)) && (HoldsMu(PcOf(s, h)) <==> s.mu == Some(h));
      var rest;
      rest, s' := HolderReturns(p, Advance(h, live, true), c);
      Concatenation(Step, s, reader, rest);
      moves := reader + rest;
    }
  }

  /** From any unpinned state with no reset pending, some reading of the caller's is not
      outlasted by its wait. */
  lemma UnpinnedContractBreaks(s: State, c: nat) returns (live: int, moves: seq<Move>, p: State)
    requires Inv(s) && !s.book.local.pinned && PcOf(s, c) == Idle && !ResetPending(s)
    ensures Exec(Step, s, moves) == Some(p) && LiveFrom(moves, live) && !Outlasts(s, p, c, live)
  {
    live := 1;
    if s.gate.Some? {
      var pc := PcOf(s, s.gate.value);
      live := if HasRequest(pc) then Target(pc.r) + 1 else 1;
      assert HolderInv(s.book, pc);
      assert pc.PinWritesFlagMu? ==> s.book.local.at == Target(pc.r);
    }
    var a, q := EveryoneFinishes(s, c, live);
    var b, t := [], q;
    if !q.book.local.pinned {
      var other := AnotherIdle(q, c);
      b, t := SoloRequest(q, live - 1, Advance(other, live, false));
    }
    var w;
    w, p := SoloWait(t, Advance(c, live, false));
    Concatenation(Step, s, a, b);
    Concatenation(Step, s, a + b, w);
    moves := a + b + w;
  }

  ghost predicate StillPending(s: State, h: nat, resets: nat) {
    s.book.resets > resets || (s.book.resets == resets && s.gate == Some(h) && ResetPending(s) && GateHeldByPc(s))
  }

  lemma StepStillPending(s: State, m: Move, h: nat, resets: nat)
    requires StillPending(s, h, resets) && Inv(s) && Step(s, m).Some?
    ensures StillPending(Step(s, m).value, h, resets)
  {
    ResetsOnlyGrow(s, m);
    StepKeepsInv(s, m);
    if s.book.resets == resets && m.c != h {
      assert !HoldsGate(PcOf(s, m.c));
      OthersChangeNothing(s, m);
      OthersStay(s, m, h);
    }
  }

  /** In any reachable state, requests under way or not: a caller may count on the contract
      for whatever live time reads exactly when the clock is pinned, or a reset the engine
      took is about to be published, which ends the stretch before any wait returns. */
  lemma ContractIffAnywhere(moves: seq<Move>, s: State, c: nat)
    requires Exec(Step, INIT, moves) == Some(s) && PcOf(s, c) == Idle
    ensures (forall live: int :: KeepsContract(s, c, Reading(s.book.local, live))) <==>
            s.book.local.pinned || ResetPending(s)
  {
    Reachable(moves, s);
    if s.book.local.pinned {
      forall later: seq<Move> | Exec(Step, s, later).Some?
        ensures Outlasts(s, Exec(Step, s, later).value, c, s.book.local.at)
      {
        PinnedWaitOutlasts(moves, s, c, later, Exec(Step, s, later).value);
      }
    } else if ResetPending(s) {
      forall later: seq<Move>, live: int | Exec(Step, s, later).Some?
        ensures Outlasts(s, Exec(Step, s, later).value, c, live)
      {
        NoneReturnsWhilePending(s, c, later, Exec(Step, s, later).value);
      }
    } else {
      var live, later, p := UnpinnedContractBreaks(s, c);
      assert !KeepsContract(s, c, Reading(s.book.local, live));
    }
  }

  lemma NoneReturnsWhilePending(s: State, c: nat, later: seq<Move>, p: State)
    requires Inv(s) && ResetPending(s) && PcOf(s, c) == Idle && Exec(Step, s, later) == Some(p)
    ensures p.book.resets == s.book.resets ==> !ReturnsNil(PcOf(p, c))
  {
    var h, resets := s.gate.value, s.book.resets;
    var inv := (q: State) => Inv(q) && StillPending(q, h, resets);
    forall q, m | inv(q) && Step(q, m).Some?
      ensures inv(Step(q, m).value)
    {
      StepKeepsInv(q, m);
      StepStillPending(q, m, h, resets);
    }
    assert inv(s);
    Invariant(Step, inv, s, later);
    assert HoldsGate(PcOf(p, c)) <==> p.gate == Some(c);
  }

  // ---------- which waits move the clock back ----------

  /** Live time does not move back during these moves. */
  predicate LiveGrows(moves: seq<Move>) {
    forall i, j :: 0 <= i <= j < |moves| && moves[i].Advance? && moves[j].Advance? ==> moves[i].live <= moves[j].live
  }

  /** In q, reached from s without a reset, publishing a wait of c moves the reading back. */
  predicate MovesBack(s: State, q: State, m: Move, c: nat) {
    && m.Advance? && m.c == c && PcOf(q, c).PinWritesFlagMu? && PcOf(q, c).r.Wait?
    && Step(q, m).Some? && q.book.resets == s.book.resets == Step(q, m).value.book.resets
    && Reading(Step(q, m).value.book.local, m.live) < Reading(q.book.local, m.live)
  }

  /** A wait of c, idle in s, may do so, with live time never moving back. */
  ghost predicate WaitMayMoveBack(s: State, c: nat) {
    exists later: seq<Move>, m: Move ::
      && Exec(Step, s, later).Some? && LiveGrows(later + [m])
      && MovesBack(s, Exec(Step, s, later).value, m, c)
  }

  /** The comment on PinTo says waits never move the clock back. Exactly those called on an
      unpinned clock can, while no request is under way: a caller can ask IsPinned. */
  lemma WaitMayMoveBackIff(moves: seq<Move>, s: State, c: nat)
    requires Exec(Step, INIT, moves) == Some(s) && s.gate == None && PcOf(s, c) == Idle
    ensures WaitMayMoveBack(s, c) <==> !s.book.local.pinned
  {
    if s.book.local.pinned {
      forall later: seq<Move>, m: Move | Exec(Step, s, later).Some?
        ensures !MovesBack(s, Exec(Step, s, later).value, m, c)
      {
        PinnedWaitKeepsForward(moves, s, later, Exec(Step, s, later).value, m, c);
      }
    } else {
      Reachable(moves, s);
      var later, q, m := UnpinnedWaitMovesBack(s, c);
      assert MovesBack(s, Exec(Step, s, later).value, m, c);
    }
  }

  lemma PinnedWaitKeepsForward(moves: seq<Move>, s: State, later: seq<Move>, q: State, m: Move, c: nat)
    requires Exec(Step, INIT, moves) == Some(s) && s.book.local.pinned && Exec(Step, s, later) == Some(q)
    ensures !MovesBack(s, q, m, c)
  {
    if MovesBack(s, q, m, c) {
      PinnedNeverMovesBack(moves, s, later, q);
      Concatenation(Step, INIT, moves, later);
      ReadingMovesBackIff(moves + later, q, m, m.live);
    }
  }

  /** Its reading of 0 passes as live time goes on to 2 before it is published. */
  lemma UnpinnedWaitMovesBack(s: State, c: nat) returns (later: seq<Move>, q: State, m: Move)
    requires MuHeldByPc(s) && GateHeldByPc(s) && s.gate == None && !s.book.local.pinned && PcOf(s, c) == Idle
    ensures Exec(Step, s, later) == Some(q) && LiveGrows(later + [m]) && MovesBack(s, q, m, c)
  {
    m := Advance(c, 2, false);
    var a, t := ReaderFinishes(s, 0);
    var b, u := SleeperAsks(t, 1, Advance(c, 0, false));
    var n;
    n, q := UnpinnedPublishes(u, m);
    Concatenation(Step, s, a, b);
    Concatenation(Step, s, a + b, Repeat(m, n));
    later := a + b + Repeat(m, n);
    FirstThen(a + b, 0, Repeat(m, n) + [m], 2);
    assert later + [m] == (a + b) + (Repeat(m, n) + [m]);
  }

  lemma FirstThen(early: seq<Move>, x: int, late: seq<Move>, y: int)
    requires LiveIs(early, x) && LiveIs(late, y) && x <= y
    ensures LiveGrows(early + late)
  {
    var all := early + late;
    forall i, j | 0 <= i <= j < |all| && all[i].Advance? && all[j].Advance?
      ensures all[i].live <= all[j].live
    {
      assert if i < |early| then all[i] in early else all[i] in late;
      assert if j < |early| then all[j] in early else all[j] in late;
    }
  }

  lemma UnpinnedPublishes(s: State, go: Move) returns (n: nat, q: State)
    requires s.gate == None && s.mu == None && !s.book.local.pinned && go.Advance? && !go.refuse
    requires PcOf(s, go.c) == PinWantsGate(Wait(go.live - 2, 1))
    ensures Exec(Step, s, Repeat(go, n)) == Some(q) && MovesBack(s, q, go, go.c)
  {
    hide Step, MovesBack;
    var p := UnpinnedArrives(s, go);
    q := SoloAccepted(p, Wait(go.live - 2, 1), go);
    Appended(s, go, 5, p, 3, q);
    PublicationMovesBack(s, q, go);
    n := 8;
  }

  lemma PublicationMovesBack(s: State, q: State, go: Move)
    requires go.Advance? && PcOf(q, go.c) == PinWritesFlagMu(Wait(go.live - 2, 1))
    requires !q.book.local.pinned && q.book.local.at == go.live - 1 && q.book.resets == s.book.resets
    ensures MovesBack(s, q, go, go.c)
  {
  }

  lemma UnpinnedArrives(s: State, go: Move) returns (p: State)
    requires s.gate == None && s.mu == None && !s.book.local.pinned && go.Advance? && !go.refuse
    requires PcOf(s, go.c) == PinWantsGate(Wait(go.live - 2, 1))
    ensures Exec(Step, s, Repeat(go, 5)) == Some(p)
    ensures p.book == s.book.(entry := s.book.local) && p.mu == None
    ensures PcOf(p, go.c) == PinCalls(Wait(go.live - 2, 1))
  {
    hide Step;
    p := SoloArrives(s, Wait(go.live - 2, 1), go);
  }

  // ---------- every operation does its work ----------

  /** Whatever the interleaving, some caller can go on as long as any is in a call. */
  lemma NeverStuck(moves: seq<Move>, s: State, c: nat, live: int, refuse: bool) returns (h: nat)
    requires Exec(Step, INIT, moves) == Some(s) && PcOf(s, c) != Idle
    ensures Step(s, Advance(h, live, refuse)).Some?
  {
    Reachable(moves, s);
    if s.mu.Some? {
      h := s.mu.value;
      assert HoldsMu(PcOf(s, h));
    } else if s.gate.Some? {
      h := s.gate.value;
      assert HoldsGate(PcOf(s, h)) && !HoldsMu(PcOf(s, h));
    } else {
      h := c;
      assert !HoldsGate(PcOf(s, h)) && !HoldsMu(PcOf(s, h));
    }
  }

  /** A wait that is canceled or not positive does nothing at all. */
  lemma NoWait(s: State, c: nat, canceled: bool, d: int)
    requires PcOf(s, c) == Idle && (canceled || d <= 0)
    ensures Step(s, Begin(c, Sleep(canceled, d))) == Some(s)
  {
  }

  lemma SleeperLooks(s: State, d: int, go: Move) returns (moves: seq<Move>, s': State)
    requires s.mu == None && PcOf(s, go.c) == Idle && go.Advance? && d > 0
    ensures Exec(Step, s, moves) == Some(s') && LiveIs(moves, go.live)
    ensures s'.gate == s.gate && s'.book == s.book && PcOf(s', go.c) == ReadMu(Some(d))
  {
    moves, s' := Extend(Step, s, [], Begin(go.c, Sleep(false, d)));
    assert PcOf(s', go.c) == WantsRead(Some(d)) && s'.mu == None;
    moves, s' := Extend(Step, s, moves, go);
  }

  lemma SleeperAsks(s: State, d: int, go: Move) returns (moves: seq<Move>, s': State)
    requires s.gate == None && s.mu == None && PcOf(s, go.c) == Idle && go.Advance? && d > 0
    ensures Exec(Step, s, moves) == Some(s') && LiveIs(moves, go.live)
    ensures s'.gate == None && s'.mu == None && s'.book == s.book
    ensures PcOf(s', go.c) == PinWantsGate(Wait(Reading(s.book.local, go.live), d))
  {
    var p;
    moves, p := SleeperLooks(s, d, go);
    var q := Goes(p, go.c, ReadDoneMu(Some(d), Reading(s.book.local, go.live)));
    s' := Goes(q.(mu := None), go.c, PinWantsGate(Wait(Reading(s.book.local, go.live), d)));
    assert Step(p, go) == Some(q) && Step(q, go) == Some(s');
    moves, q := Extend(Step, s, moves, go);
    moves, q := Extend(Step, s, moves, go);
  }

  /** A caller of Sleep left alone with a free clock does what the postcondition of
      EngineClocks.EngineClock.Sleep says. */
  lemma SoloSleep(s: State, d: int, go: Move) returns (moves: seq<Move>, s': State)
    requires s.gate == None && s.mu == None && PcOf(s, go.c) == Idle && go.Advance? && d > 0
    ensures Exec(Step, s, moves) == Some(s')
    ensures var r := Wait(Reading(s.book.local, go.live), d);
            && s'.book.local == Outcome(s.book.local, Target(r), go.refuse)
            && (!go.refuse ==> s'.book.local == Local(true, Target(r)) && s'.book.settled == s.book.settled + [r])
    ensures PcOf(s', go.c) == Idle && s'.gate == None && s'.mu == None && s'.book.resets == s.book.resets
  {
    var r := Wait(Reading(s.book.local, go.live), d);
    var first, p := SleeperAsks(s, d, go);
    var n;
    n, s' := SoloPinTo(p, r, go);
    Concatenation(Step, s, first, Repeat(go, n));
    moves := first + Repeat(go, n);
  }

  lemma ResetterCalls(s: State, go: Move) returns (moves: seq<Move>, s': State)
    requires s.gate == None && PcOf(s, go.c) == Idle && go.Advance?
    ensures Exec(Step, s, moves) == Some(s')
    ensures s'.gate == Some(go.c) && s'.mu == s.mu && s'.book == s.book.(entry := s.book.local)
    ensures PcOf(s', go.c) == ResetCalls
  {
    moves, s' := Extend(Step, s, [], Begin(go.c, Reset));
    assert PcOf(s', go.c) == ResetWantsGate;
    moves, s' := Extend(Step, s, moves, go);
  }

  lemma ResetterAccepted(s: State, go: Move) returns (s': State)
    requires s.mu == None && PcOf(s, go.c) == ResetCalls && go.Advance? && !go.refuse
    ensures Exec(Step, s, Repeat(go, 2)) == Some(s')
    ensures s'.gate == s.gate && s'.mu == Some(go.c) && s'.book == s.book.(engine := None, accepted := [])
    ensures PcOf(s', go.c) == ResetWritesFlagMu
  {
    assert Repeat(go, 0) == [];
    s' := Again(Step, s, go, 0);
    assert PcOf(s', go.c) == ResetAccepted && s'.mu == None;
    s' := Again(Step, s, go, 1);
  }

  lemma ResetterWrites(s: State, go: Move) returns (s': State)
    requires PcOf(s, go.c) == ResetWritesFlagMu && go.Advance?
    ensures Exec(Step, s, Repeat(go, 2)) == Some(s')
    ensures s'.gate == s.gate && s'.mu == s.mu && s'.book == s.book.(local := LIVE, resets := s.book.resets + 1)
    ensures PcOf(s', go.c) == ResetUnlocksMu
  {
    assert Repeat(go, 0) == [];
    s' := Again(Step, s, go, 0);
    assert PcOf(s', go.c) == ResetWritesAtMu;
    s' := Again(Step, s, go, 1);
  }

  lemma ResetterLeaves(s: State, go: Move) returns (s': State)
    requires PcOf(s, go.c) == ResetUnlocksMu && go.Advance?
    ensures Exec(Step, s, Repeat(go, 2)) == Some(s')
    ensures s'.gate == None && s'.mu == None && s'.book == s.book.(settled := []) && PcOf(s', go.c) == Idle
  {
    assert Repeat(go, 0) == [];
    s' := Again(Step, s, go, 0);
    assert PcOf(s', go.c) == ResetLeaves(false);
    s' := Again(Step, s, go, 1);
  }

  lemma ResetterRefused(s: State, go: Move) returns (s': State)
    requires s.mu == None && PcOf(s, go.c) == ResetCalls && go.Advance? && go.refuse
    ensures Exec(Step, s, Repeat(go, 2)) == Some(s')
    ensures s'.gate == None && s'.mu == None && s'.book == s.book && PcOf(s', go.c) == Idle
  {
    assert Repeat(go, 0) == [];
    s' := Again(Step, s, go, 0);
    assert PcOf(s', go.c) == ResetLeaves(true);
    s' := Again(Step, s, go, 1);
  }

  /** A caller of Reset left alone with a free clock does what the postcondition of
      EngineClocks.EngineClock.Reset says. */
  lemma SoloReset(s: State, go: Move) returns (moves: seq<Move>, s': State)
    requires s.gate == None && s.mu == None && PcOf(s, go.c) == Idle && go.Advance?
    ensures Exec(Step, s, moves) == Some(s')
    ensures s'.book.local == if go.refuse then s.book.local else LIVE
    ensures s'.book.engine == if go.refuse then s.book.engine else None
    ensures s'.book.settled == if go.refuse then s.book.settled else []
    ensures s'.book.resets == if go.refuse then s.book.resets else s.book.resets + 1
    ensures PcOf(s', go.c) == Idle && s'.gate == None && s'.mu == None
  {
    var first, p := ResetterCalls(s, go);
    var n;
    if go.refuse {
      s' := ResetterRefused(p, go);
      n := 2;
    } else {
      var q := ResetterAccepted(p, go);
      var t := ResetterWrites(q, go);
      s' := ResetterLeaves(t, go);
      Appended(p, go, 2, q, 2, t);
      Appended(p, go, 4, t, 2, s');
      n := 6;
    }
    Concatenation(Step, s, first, Repeat(go, n));
    moves := first + Repeat(go, n);
  }
}

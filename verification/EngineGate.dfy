/**
 The engine thread and the control thread: the frozen flag, its acknowledgement through
 the channel handler, and the cycle lock. Every shared access is one step; a run is any
 interleaving of the two threads with any program on the control side.
 */
module EngineGate {
  datatype Owner = Nobody | ByEngine | ByControl

  /** Where SynthModular::Update stands; `idle` is the branch taken at its top. */
  datatype EnginePc =
    | Top
    | Enter(idle: bool)      // about to lock the cycle
    | Sync(idle: bool)       // cycle locked, about to try the channel mutex
    | Copying(idle: bool)    // channel mutex held, indicator flipped
    | Synced(idle: bool)     // UpdateDataNow has returned
    | Walking                // the device walk
    | Rendering              // RenderAudio

  /** Where control stands inside FreezeAll, ThawAll or a lock; `Ready` is between calls. */
  datatype Pc =
    | Ready
    | Set(v: bool) | SetHeld(v: bool)
    | Mark(round: nat) | MarkHeld(round: nat)
    | Look(round: nat) | LookHeld(round: nat)
    | AtGate

  /** What control code calls. `Reset` is ResetAudio, `Raise` its flag assignment, `Work`
      anything it does to devices, wires or settings. */
  datatype Call = Freeze | Thaw | Gate | Ungate | Work | Reset | Raise

  /** The two locks and the flags both threads can reach. `frozen` is the engine's copy,
      `asked` the channel's buffer. `flips` counts changes of the indicator; no thread
      reads it. */
  datatype Shared = Shared(cycle: Owner, mutex: Owner, indicator: bool, flips: nat, frozen: bool, asked: bool,
                           hostNeedsUpdate: bool, resetting: bool)

  /** Control's own variables. Of these no thread reads `setAt`, `markAt` and `seenAt`,
      the flips at the last store of true, the last mark and the last look, and `owned`:
      FreezeAll has returned, with no ThawAll since. */
  datatype Mind = Mind(pc: Pc, todo: seq<Call>, last: bool, current: bool,
                       setAt: nat, markAt: nat, seenAt: nat, owned: bool)

  datatype State = State(engine: EnginePc, shared: Shared, mind: Mind)

  const START := State(Top, Shared(Nobody, Nobody, false, 0, false, false, false, false),
                       Mind(Ready, [], false, false, 0, 0, 0, false))

  // ------------------------------------------------------------ engine steps

  function LockCycle(s: State, idle: bool): State {
    if s.shared.cycle.Nobody? then State(Sync(idle), s.shared.(cycle := ByEngine), s.mind) else s
  }

  /** trylock and flip, or skip this update. */
  function TryUpdate(s: State, idle: bool): State {
    if s.shared.mutex.Nobody? then
      State(Copying(idle),
            s.shared.(mutex := ByEngine, indicator := !s.shared.indicator, flips := s.shared.flips + 1), s.mind)
    else State(Synced(idle), s.shared, s.mind)
  }

  function CopyChannels(s: State, idle: bool): State {
    State(Synced(idle), s.shared.(mutex := Nobody, frozen := s.shared.asked), s.mind)
  }

  function LeaveOrWalk(s: State, idle: bool): State {
    if idle || s.shared.frozen then State(Top, s.shared.(cycle := Nobody), s.mind) else State(Walking, s.shared, s.mind)
  }

  function WalkDevices(s: State, render: bool): State {
    var h := s.shared.(resetting := s.shared.resetting || s.shared.hostNeedsUpdate, hostNeedsUpdate := false);
    if render then State(Rendering, h, s.mind) else State(Top, h.(cycle := Nobody), s.mind)
  }

  function RenderAudio(s: State): State {
    State(Top, s.shared.(resetting := false, cycle := Nobody), s.mind)
  }

  function EngineStepOf(s: State, render: bool): State {
    match s.engine
    case Top => State(Enter(s.shared.frozen), s.shared, s.mind)
    case Enter(idle) => LockCycle(s, idle)
    case Sync(idle) => TryUpdate(s, idle)
    case Copying(idle) => CopyChannels(s, idle)
    case Synced(idle) => LeaveOrWalk(s, idle)
    case Walking => WalkDevices(s, render)
    case Rendering => RenderAudio(s)
  }

  // ----------------------------------------------------------- control steps

  /** The next call of the control code. */
  function Begin(s: State): State {
    if s.mind.todo == [] then s
    else
      var rest := s.mind.todo[1..];
      match s.mind.todo[0]
      case Freeze => State(s.engine, s.shared, s.mind.(todo := rest, pc := Set(true)))
      case Thaw => State(s.engine, s.shared, s.mind.(todo := rest, pc := Set(false)))
      case Gate => State(s.engine, s.shared, s.mind.(todo := rest, pc := AtGate))
      case Ungate => State(s.engine, s.shared.(cycle := if s.shared.cycle.ByControl? then Nobody else s.shared.cycle),
                           s.mind.(todo := rest))
      case Work => State(s.engine, s.shared, s.mind.(todo := rest))
      case Reset =>
        State(s.engine, s.shared, s.mind.(todo := if s.shared.resetting then rest else [Freeze, Raise, Thaw] + rest))
      case Raise => State(s.engine, s.shared.(resetting := true), s.mind.(todo := rest))
  }

  function Store(s: State, v: bool): State {
    if !s.shared.mutex.Nobody? then s
    else State(s.engine, s.shared.(mutex := ByControl, asked := v),
               s.mind.(pc := SetHeld(v), setAt := if v then s.shared.flips else s.mind.setAt,
                       owned := v && s.mind.owned))
  }

  function Stored(s: State, v: bool): State {
    State(s.engine, s.shared.(mutex := Nobody), s.mind.(pc := if v then Mark(0) else Ready))
  }

  function ReadFirst(s: State, n: nat): State {
    if !s.shared.mutex.Nobody? then s
    else State(s.engine, s.shared.(mutex := ByControl),
               s.mind.(pc := MarkHeld(n), last := s.shared.indicator, markAt := s.shared.flips))
  }

  function ReadAgain(s: State, n: nat): State {
    if !s.shared.mutex.Nobody? then s
    else State(s.engine, s.shared.(mutex := ByControl),
               s.mind.(pc := LookHeld(n), current := s.shared.indicator, seenAt := s.shared.flips))
  }

  /** The while condition of Wait, its second round, and its return. */
  function Compare(s: State, n: nat): State {
    var h := s.shared.(mutex := Nobody);
    if s.mind.current == s.mind.last then State(s.engine, h, s.mind.(pc := Look(n)))
    else if n == 0 then State(s.engine, h, s.mind.(pc := Mark(1)))
    else State(s.engine, h, s.mind.(pc := Ready, owned := true))
  }

  function TakeGate(s: State): State {
    if s.shared.cycle.Nobody? then State(s.engine, s.shared.(cycle := ByControl), s.mind.(pc := Ready)) else s
  }

  function ControlStepOf(s: State): State {
    match s.mind.pc
    case Ready => Begin(s)
    case Set(v) => Store(s, v)
    case SetHeld(v) => Stored(s, v)
    case Mark(n) => ReadFirst(s, n)
    case MarkHeld(n) => State(s.engine, s.shared.(mutex := Nobody), s.mind.(pc := Look(n)))
    case Look(n) => ReadAgain(s, n)
    case LookHeld(n) => Compare(s, n)
    case AtGate => TakeGate(s)
  }

  // -------------------------------------------------------------------- runs

  /** A step of the audio thread, which renders if the transport wants a period; a step of
      control; idle control starting a piece of code; a native client changing the rate. */
  datatype Move = EngineStep(render: bool) | ControlStep | Calls(code: seq<Call>) | DriverChange

  function Step(s: State, m: Move): State {
    match m
    case EngineStep(render) => EngineStepOf(s, render)
    case ControlStep => ControlStepOf(s)
    case Calls(code) =>
      if s.mind.pc.Ready? && s.mind.todo == [] then State(s.engine, s.shared, s.mind.(todo := code)) else s
    case DriverChange => State(s.engine, s.shared.(hostNeedsUpdate := true), s.mind)
  }

  function Run(s: State, moves: seq<Move>): State
    decreases |moves|
  {
    if moves == [] then s else Run(Step(s, moves[0]), moves[1..])
  }

  // ---------------------------------------------------------------- invariant

  predicate Odd(n: nat) { n % 2 == 1 }

  /** The engine runs devices. */
  predicate Playing(s: State) { s.engine.Walking? || s.engine.Rendering? }

  predicate ControlHolds(pc: Pc) { pc.SetHeld? || pc.MarkHeld? || pc.LookHeld? }

  /** Past the store of true in FreezeAll. */
  predicate Asking(pc: Pc) { (pc.SetHeld? && pc.v) || pc.Mark? || pc.MarkHeld? || pc.Look? || pc.LookHeld? }

  predicate LocksRight(s: State) {
    && (s.shared.cycle.ByEngine? <==> !s.engine.Top? && !s.engine.Enter?)
    && (s.shared.mutex.ByEngine? <==> s.engine.Copying?)
    && (s.shared.mutex.ByControl? <==> ControlHolds(s.mind.pc))
  }

  /** What the counters say about the booleans control compares. */
  predicate CountersRight(s: State) {
    && s.shared.indicator == Odd(s.shared.flips)
    && s.mind.setAt <= s.shared.flips
    && (s.mind.pc.MarkHeld? || s.mind.pc.Look? || s.mind.pc.LookHeld? ==>
          s.mind.last == Odd(s.mind.markAt) && s.mind.setAt <= s.mind.markAt <= s.shared.flips)
    && (s.mind.pc.LookHeld? ==>
          s.mind.current == Odd(s.mind.seenAt) && s.mind.markAt <= s.mind.seenAt <= s.shared.flips)
  }

  /** Once the indicator has flipped after the store the engine has the flag, unless it is
      between flipping and copying. */
  predicate FlagArrives(s: State) {
    && (Asking(s.mind.pc) || s.mind.owned ==> s.shared.asked)
    && (Asking(s.mind.pc) && s.shared.flips > s.mind.setAt ==> s.shared.frozen || s.engine.Copying?)
    && (s.mind.owned ==> s.shared.frozen)
    && (Playing(s) ==> !s.shared.frozen)
  }

  predicate Inv(s: State) { LocksRight(s) && CountersRight(s) && FlagArrives(s) }

  lemma FlipKeepsCounters(s: State, idle: bool)
    requires CountersRight(s)
    ensures CountersRight(TryUpdate(s, idle))
  {
    assert Odd(s.shared.flips + 1) == !Odd(s.shared.flips);
  }

  lemma EngineKeepsCounters(s: State, render: bool)
    requires CountersRight(s)
    ensures CountersRight(EngineStepOf(s, render))
  {
    var r := EngineStepOf(s, render);
    if s.engine.Sync? {
      FlipKeepsCounters(s, s.engine.idle);
    } else {
      assert r.mind == s.mind && r.shared.indicator == s.shared.indicator && r.shared.flips == s.shared.flips;
    }
  }

  lemma EngineKeepsLocks(s: State, render: bool)
    requires LocksRight(s)
    ensures LocksRight(EngineStepOf(s, render))
  {
  }

  lemma EngineKeepsFlag(s: State, render: bool)
    requires FlagArrives(s)
    ensures FlagArrives(EngineStepOf(s, render))
  {
  }

  lemma BeginKeeps(s: State)
    requires Inv(s) && s.mind.pc.Ready?
    ensures Inv(Begin(s))
  {
  }

  lemma ControlKeepsLocks(s: State)
    requires LocksRight(s) && !s.mind.pc.Ready?
    ensures LocksRight(ControlStepOf(s))
  {
  }

  lemma ReadsKeepCounters(s: State)
    requires CountersRight(s) && (s.mind.pc.Mark? || s.mind.pc.MarkHeld? || s.mind.pc.Look?)
    ensures CountersRight(ControlStepOf(s))
  {
  }

  lemma ControlKeepsCounters(s: State)
    requires CountersRight(s) && !s.mind.pc.Ready?
    ensures CountersRight(ControlStepOf(s))
  {
    if s.mind.pc.Mark? || s.mind.pc.MarkHeld? || s.mind.pc.Look? { ReadsKeepCounters(s); }
  }

  /** The two looks of Wait differ only if the indicator flipped after the store, and
      control can look only while the engine is not between flipping and copying. */
  lemma ControlKeepsFlag(s: State)
    requires LocksRight(s) && CountersRight(s) && FlagArrives(s) && !s.mind.pc.Ready?
    ensures FlagArrives(ControlStepOf(s))
  {
    if s.mind.pc.LookHeld? && s.mind.current != s.mind.last {
      assert s.mind.seenAt > s.mind.markAt;
    }
  }

  lemma StepInv(s: State, m: Move)
    requires Inv(s)
    ensures Inv(Step(s, m))
  {
    match m
    case EngineStep(render) =>
      EngineKeepsLocks(s, render);
      EngineKeepsCounters(s, render);
      EngineKeepsFlag(s, render);
    case ControlStep =>
      if s.mind.pc.Ready? {
        BeginKeeps(s);
      } else {
        ControlKeepsLocks(s);
        ControlKeepsCounters(s);
        ControlKeepsFlag(s);
      }
    case _ =>
  }

  lemma {:induction false} RunInv(s: State, moves: seq<Move>)
    requires Inv(s)
    ensures Inv(Run(s, moves))
    decreases |moves|
  {
    if moves != [] {
      StepInv(s, moves[0]);
      RunInv(Step(s, moves[0]), moves[1..]);
    }
  }

  /** In every interleaving and for every control program: between FreezeAll's return and
      ThawAll the engine is in no device, and neither is it while control holds the gate. */
  lemma EveryInterleaving(moves: seq<Move>)
    ensures var s := Run(START, moves);
            Playing(s) ==> !s.mind.owned && !s.shared.cycle.ByControl?
  {
    RunInv(START, moves);
  }

  // ------------------------------------------------- what each flag goes by

  /** What the flags should say, kept by watching only where the two threads stand. */
  datatype Book = Book(resetting: bool, hostNeedsUpdate: bool, asked: bool, frozen: bool, gated: bool, skips: bool)

  predicate EngineAt(s: State, m: Move, pc: EnginePc) { m.EngineStep? && s.engine == pc }

  predicate Begins(s: State, m: Move, c: Call) {
    m.ControlStep? && s.mind.pc.Ready? && s.mind.todo != [] && s.mind.todo[0] == c
  }

  /** The flag is raised by a walk that finds the host changed, and by ResetAudio. */
  predicate RaisesReset(s: State, m: Move, b: Book) {
    (EngineAt(s, m, Walking) && b.hostNeedsUpdate) || Begins(s, m, Raise)
  }

  function Booked(s: State, m: Move, b: Book): Book {
    Book(
      // up since it was raised, down since a period was rendered
      RaisesReset(s, m, b) || (b.resetting && !EngineAt(s, m, Rendering)),
      m.DriverChange? || (b.hostNeedsUpdate && !EngineAt(s, m, Walking)),
      // the last value stored
      if m.ControlStep? && s.mind.pc.Set? && s.shared.mutex.Nobody? then s.mind.pc.v else b.asked,
      // what was stored when the engine last copied
      if m.EngineStep? && s.engine.Copying? then b.asked else b.frozen,
      // the gate taken and not given back
      (m.ControlStep? && s.mind.pc.AtGate? && s.shared.cycle.Nobody?) || (b.gated && !Begins(s, m, Ungate)),
      // whether the engine found itself frozen when its period began
      if EngineAt(s, m, Top) then b.frozen else b.skips)
  }

  function BookedRun(s: State, moves: seq<Move>, b: Book): Book
    decreases |moves|
  {
    if moves == [] then b else BookedRun(Step(s, moves[0]), moves[1..], Booked(s, moves[0], b))
  }

  ghost predicate Agrees(s: State, b: Book) {
    && s.shared.resetting == b.resetting && s.shared.hostNeedsUpdate == b.hostNeedsUpdate
    && s.shared.asked == b.asked && s.shared.frozen == b.frozen && s.shared.cycle.ByControl? == b.gated
    && (s.engine.Enter? || s.engine.Sync? || s.engine.Copying? || s.engine.Synced? ==> s.engine.idle == b.skips)
    && (Playing(s) ==> !b.skips)
  }

  lemma EngineBooked(s: State, render: bool, b: Book, r: State, c: Book)
    requires LocksRight(s) && Agrees(s, b)
    requires r == EngineStepOf(s, render) && c == Booked(s, EngineStep(render), b)
    ensures Agrees(r, c)
  {
  }

  lemma BeginBooked(s: State, b: Book, r: State, c: Book)
    requires LocksRight(s) && Agrees(s, b) && s.mind.pc.Ready?
    requires r == Begin(s) && c == Booked(s, ControlStep, b)
    ensures Agrees(r, c)
  {
  }

  lemma TakeBooked(s: State, b: Book, r: State, c: Book)
    requires LocksRight(s) && Agrees(s, b) && (s.mind.pc.Set? || s.mind.pc.AtGate?)
    requires r == ControlStepOf(s) && c == Booked(s, ControlStep, b)
    ensures Agrees(r, c)
  {
  }

  /** The other steps of control change no flag. */
  lemma WaitBooked(s: State, b: Book, r: State, c: Book)
    requires LocksRight(s) && Agrees(s, b) && !s.mind.pc.Ready? && !s.mind.pc.Set? && !s.mind.pc.AtGate?
    requires r == ControlStepOf(s) && c == Booked(s, ControlStep, b)
    ensures Agrees(r, c)
  {
    assert c == b;
    assert r.engine == s.engine && r.shared == s.shared.(mutex := r.shared.mutex);
  }

  lemma ControlBooked(s: State, b: Book, r: State, c: Book)
    requires LocksRight(s) && Agrees(s, b)
    requires r == ControlStepOf(s) && c == Booked(s, ControlStep, b)
    ensures Agrees(r, c)
  {
    if s.mind.pc.Ready? {
      BeginBooked(s, b, r, c);
    } else if s.mind.pc.Set? || s.mind.pc.AtGate? {
      TakeBooked(s, b, r, c);
    } else {
      WaitBooked(s, b, r, c);
    }
  }

  lemma StepBooked(s: State, m: Move, b: Book)
    requires LocksRight(s) && Agrees(s, b)
    ensures Agrees(Step(s, m), Booked(s, m, b))
  {
    match m
    case EngineStep(render) => EngineBooked(s, render, b, Step(s, m), Booked(s, m, b));
    case ControlStep => ControlBooked(s, b, Step(s, m), Booked(s, m, b));
    case _ =>
  }

  lemma {:induction false} RunBooked(s: State, moves: seq<Move>, b: Book)
    requires Inv(s) && Agrees(s, b)
    ensures Agrees(Run(s, moves), BookedRun(s, moves, b))
    decreases |moves|
  {
    if moves != [] {
      StepInv(s, moves[0]);
      StepBooked(s, moves[0], b);
      RunBooked(Step(s, moves[0]), moves[1..], Booked(s, moves[0], b));
    }
  }

  const BLANK := Book(false, false, false, false, false, false)

  /** In every run the reset flag is up if and only if it was raised since a period was last
      rendered, and each other flag too is what its last event made it; a period that began
      frozen runs no device, and one that did not runs them if and only if the flag it then
      copies is down. */
  lemma EveryFlagIsBooked(moves: seq<Move>, render: bool)
    ensures var s, b := Run(START, moves), BookedRun(START, moves, BLANK);
            && s.shared.resetting == b.resetting && s.shared.hostNeedsUpdate == b.hostNeedsUpdate
            && s.shared.asked == b.asked && s.shared.frozen == b.frozen && s.shared.cycle.ByControl? == b.gated
            && (s.engine.Synced? ==> (Playing(Step(s, EngineStep(render))) <==> !b.skips && !b.frozen))
  {
    RunBooked(START, moves, BLANK);
  }

  // ----------------------------------------------------- Wait takes two rounds

  /** In its second round Wait has seen the indicator change since the store. */
  predicate Rounds(s: State) {
    var pc := s.mind.pc;
    && (pc.Mark? || pc.MarkHeld? || pc.Look? || pc.LookHeld? ==>
          pc.round <= 1 && s.mind.setAt + pc.round <= s.shared.flips)
    && (pc.MarkHeld? || pc.Look? || pc.LookHeld? ==> s.mind.setAt + pc.round <= s.mind.markAt)
  }

  lemma EngineRounds(s: State, render: bool)
    requires Rounds(s)
    ensures Rounds(EngineStepOf(s, render))
  {
  }

  lemma CompareRounds(s: State)
    requires CountersRight(s) && Rounds(s) && s.mind.pc.LookHeld?
    ensures Rounds(Compare(s, s.mind.pc.round))
  {
  }

  lemma ControlRounds(s: State)
    requires CountersRight(s) && Rounds(s)
    ensures Rounds(ControlStepOf(s))
  {
    if s.mind.pc.LookHeld? { CompareRounds(s); }
  }

  lemma StepRounds(s: State, m: Move)
    requires CountersRight(s) && Rounds(s)
    ensures Rounds(Step(s, m))
  {
    match m
    case EngineStep(render) => EngineRounds(s, render);
    case ControlStep => ControlRounds(s);
    case _ =>
  }

  lemma {:induction false} RunRounds(s: State, moves: seq<Move>)
    requires Inv(s) && Rounds(s)
    ensures Rounds(Run(s, moves)) && Inv(Run(s, moves))
    decreases |moves|
  {
    if moves != [] {
      StepInv(s, moves[0]);
      StepRounds(s, moves[0]);
      RunRounds(Step(s, moves[0]), moves[1..]);
    }
  }

  /** FreezeAll does not return before the engine has updated its channels twice since the
      flag was stored, in any run. */
  lemma FreezeWaitsForTwo(moves: seq<Move>)
    ensures var s := Run(START, moves);
            s.mind.pc.LookHeld? && Step(s, ControlStep).mind.pc.Ready? ==> s.shared.flips >= s.mind.setAt + 2
  {
    RunRounds(START, moves);
  }

  // --------------------------------------------- what UpdateHostInfo leaves behind

  /** Moves during which control starts nothing new. */
  predicate NoNewCode(moves: seq<Move>) { forall i :: 0 <= i < |moves| ==> !moves[i].Calls? }

  /** UpdateHostInfo after its freeze has returned: only ResetAudio is left to do. */
  predicate AtResetAudio(s: State) {
    s.mind.pc.Ready? && s.mind.todo == [Reset] && s.mind.owned
  }

  /** How far the rest of UpdateHostInfo has come, given what `resetting` was: skipped
      with the engine still frozen, or inside FreezeAll, Raise and ThawAll. */
  predicate Resetting(s: State, pending: bool) {
    var pc, todo := s.mind.pc, s.mind.todo;
    if todo == [Reset] then AtResetAudio(s) && s.shared.resetting == pending
    else if pending then pc.Ready? && todo == [] && s.mind.owned
    else
      || (todo == [Freeze, Raise, Thaw] && pc.Ready?)
      || (todo == [Raise, Thaw] && (pc.Ready? || Asking(pc) || (pc.Set? && pc.v)))
      || (todo == [Thaw] && pc.Ready?)
      || (todo == [] && ((pc.Set? && !pc.v) || (!s.shared.asked && ((pc.SetHeld? && !pc.v) || pc.Ready?))))
  }

  lemma ResettingEngine(s: State, pending: bool, render: bool)
    requires FlagArrives(s) && LocksRight(s) && Resetting(s, pending)
    ensures Resetting(EngineStepOf(s, render), pending)
  {
  }

  lemma ResettingControl(s: State, pending: bool)
    requires Resetting(s, pending)
    ensures Resetting(ControlStepOf(s), pending)
  {
    if s.mind.pc.Ready? && s.mind.todo == [Reset] {
      assert [Freeze, Raise, Thaw] + s.mind.todo[1..] == [Freeze, Raise, Thaw];
    }
  }

  lemma {:induction false} ResettingRun(s: State, pending: bool, moves: seq<Move>)
    requires Inv(s) && Resetting(s, pending) && NoNewCode(moves)
    ensures Resetting(Run(s, moves), pending)
    decreases |moves|
  {
    if moves != [] {
      StepInv(s, moves[0]);
      match moves[0] {
        case EngineStep(render) => ResettingEngine(s, pending, render);
        case ControlStep => ResettingControl(s, pending);
        case Calls(code) =>
        case DriverChange =>
      }
      ResettingRun(Step(s, moves[0]), pending, moves[1..]);
    }
  }

  /** UpdateHostInfo asks for the thaw exactly when no reset was pending, whatever the
      engine does meanwhile: once its code has run out, the channel still says frozen if
      and only if ResetAudio found the flag already up. */
  lemma HostUpdateThawsUnlessResetPending(s: State, moves: seq<Move>)
    requires Inv(s) && AtResetAudio(s) && NoNewCode(moves)
    requires Run(s, moves).mind.pc.Ready? && Run(s, moves).mind.todo == []
    ensures Run(s, moves).shared.asked <==> s.shared.resetting
  {
    ResettingRun(s, s.shared.resetting, moves);
    RunInv(s, moves);
  }

  /** The engine is frozen with a reset waiting, and no code of control will thaw it. */
  predicate Stuck(s: State) {
    && s.mind.owned && s.shared.resetting && Thaw !in s.mind.todo
    && !((s.mind.pc.Set? || s.mind.pc.SetHeld?) && !s.mind.pc.v)
  }

  predicate NoThaw(moves: seq<Move>) { forall i :: 0 <= i < |moves| && moves[i].Calls? ==> Thaw !in moves[i].code }

  lemma StuckControl(s: State)
    requires Stuck(s)
    ensures Stuck(ControlStepOf(s))
  {
    if s.mind.pc.Ready? && s.mind.todo != [] { assert s.mind.todo[0] != Thaw; }
  }

  /** Then no reset, host update or gate section ever helps: the reset stays pending, so
      ResetAudio keeps skipping its thaw, and the engine runs no device again. */
  lemma {:induction false} StuckStays(s: State, moves: seq<Move>)
    requires Inv(s) && Stuck(s) && NoThaw(moves)
    ensures Stuck(Run(s, moves)) && !Playing(Run(s, moves))
    decreases |moves|
  {
    if moves != [] {
      StepInv(s, moves[0]);
      if moves[0].ControlStep? { StuckControl(s); }
      StuckStays(Step(s, moves[0]), moves[1..]);
    }
  }

  // ------------------------------------------------- nothing waits for nothing

  lemma {:induction false} RunAppend(s: State, a: seq<Move>, b: seq<Move>)
    ensures Run(s, a + b) == Run(Run(s, a), b)
    decreases |a|
  {
    if a == [] {
      assert a + b == b;
    } else {
      assert (a + b)[1..] == a[1..] + b;
      RunAppend(Step(s, a[0]), a[1..], b);
    }
  }

  lemma RunOne(s: State, m: Move)
    ensures Run(s, [m]) == Step(s, m)
  {
    assert Run(Step(s, m), [m][1..]) == Step(s, m);
  }

  /** Engine steps left until the walk, when control wants none of the locks. */
  function ToWalk(s: State): nat {
    match s.engine
    case Walking => 0
    case Rendering => 0
    case Synced(idle) => if s.shared.frozen then 11 else if idle then 6 else 1
    case Copying(idle) => if idle then 7 else 2
    case Sync(idle) => if idle then 8 else 3
    case Enter(idle) => if idle then 9 else 4
    case Top => if s.shared.frozen then 10 else 5
  }

  lemma NearerWalk(s: State)
    requires LocksRight(s) && FlagArrives(s) && !Playing(s)
    requires !s.shared.asked && s.mind.pc.Ready? && !s.shared.cycle.ByControl?
    ensures var t := EngineStepOf(s, true);
            && ToWalk(t) < ToWalk(s) && !t.shared.asked && t.mind == s.mind && !t.shared.cycle.ByControl?
            && !t.engine.Rendering?
  {
  }

  /** A thaw is seen: with the flag down in the channel and control idle, the engine is
      back among its devices within eleven of its own steps. */
  lemma {:induction false} ThawIsSeen(s: State) returns (moves: seq<Move>)
    requires Inv(s) && !s.shared.asked && s.mind.pc.Ready? && !s.shared.cycle.ByControl?
    ensures |moves| <= ToWalk(s) <= 11 && (forall i :: 0 <= i < |moves| ==> moves[i] == EngineStep(true))
    ensures Playing(Run(s, moves)) && Run(s, moves).mind == s.mind && !Run(s, moves).shared.asked
    ensures Run(s, moves).engine.Rendering? <==> s.engine.Rendering?
    decreases ToWalk(s)
  {
    if Playing(s) {
      moves := [];
    } else {
      NearerWalk(s);
      StepInv(s, EngineStep(true));
      var rest := ThawIsSeen(EngineStepOf(s, true));
      moves := [EngineStep(true)] + rest;
      assert moves[1..] == rest;
    }
  }

  lemma Then(s: State, moves: seq<Move>, m: Move) returns (longer: seq<Move>)
    ensures longer == moves + [m] && Run(s, longer) == Step(Run(s, moves), m)
  {
    longer := moves + [m];
    RunAppend(s, moves, [m]);
    RunOne(Run(s, moves), m);
  }

  function ToSync(s: State): nat {
    match s.engine
    case Sync(_) => 0
    case Enter(_) => 1
    case Top => 2
    case Walking => 3
    case Rendering => 3
    case Synced(_) => 4
    case Copying(_) => 5
  }

  predicate ResetWaits(s: State) { s.shared.resetting && !s.engine.Rendering? }

  lemma NearerSync(s: State)
    requires !s.engine.Sync? && !s.shared.cycle.ByControl? && !s.shared.mutex.ByControl? && LocksRight(s)
    ensures var t := EngineStepOf(s, false);
            && ToSync(t) < ToSync(s) && t.mind == s.mind && t.shared.flips == s.shared.flips
            && !t.shared.cycle.ByControl? && !t.shared.mutex.ByControl? && (ResetWaits(s) ==> ResetWaits(t))
  {
  }

  lemma Flips(s: State)
    requires Inv(s) && s.engine.Sync? && !s.shared.mutex.ByControl?
    ensures var r := EngineStepOf(EngineStepOf(s, false), false);
            && r.mind == s.mind && r.shared.flips == s.shared.flips + 1
            && r.shared.mutex.Nobody? && r.shared.cycle.ByEngine? && (ResetWaits(s) ==> ResetWaits(r))
  {
  }

  /** Left alone, the engine flips the indicator once more and lets go of the channels. */
  lemma {:induction false} FlipOnce(s: State) returns (moves: seq<Move>)
    requires Inv(s) && !s.shared.cycle.ByControl? && !s.shared.mutex.ByControl?
    ensures var r := Run(s, moves);
            && Inv(r) && r.mind == s.mind && r.shared.flips == s.shared.flips + 1
            && r.shared.mutex.Nobody? && !r.shared.cycle.ByControl? && (ResetWaits(s) ==> ResetWaits(r))
    decreases ToSync(s)
  {
    if s.engine.Sync? {
      Flips(s);
      moves := Then(s, [], EngineStep(false));
      moves := Then(s, moves, EngineStep(false));
      RunInv(s, moves);
    } else {
      NearerSync(s);
      StepInv(s, EngineStep(false));
      var rest := FlipOnce(EngineStepOf(s, false));
      moves := [EngineStep(false)] + rest;
      assert moves[1..] == rest;
    }
  }

  /** Control at a point of FreezeAll, and nothing in the engine's way. */
  predicate Waits(s: State, pc: Pc) { Inv(s) && s.mind.pc == pc && !s.shared.cycle.ByControl? }

  /** What stays as it was while control waits. */
  predicate SameErrand(s: State, r: State) {
    r.mind.todo == s.mind.todo && !r.shared.cycle.ByControl? && (ResetWaits(s) ==> ResetWaits(r))
  }

  predicate Returned(s: State) { Inv(s) && s.mind.pc.Ready? && s.mind.owned && s.shared.mutex.Nobody? }

  /** Steps of a run put one after the other. */
  lemma Onwards(s: State, a: seq<Move>, b: seq<Move>) returns (moves: seq<Move>)
    ensures moves == a + b && Run(s, moves) == Run(Run(s, a), b)
  {
    RunAppend(s, a, b);
    moves := a + b;
  }

  /** A round of Wait that has its mark can end: the engine flips the indicator, and once
      more if it had flipped an odd number of times already. */
  lemma LookCanEnd(s: State, n: nat) returns (moves: seq<Move>)
    requires Waits(s, Look(n))
    ensures var r := Run(s, moves);
            && Inv(r) && r.shared.mutex.Nobody? && SameErrand(s, r)
            && (if n == 0 then r.mind.pc == Mark(1) else Returned(r))
  {
    moves := FlipOnce(s);
    if Run(s, moves).shared.indicator == s.mind.last {
      var again := FlipOnce(Run(s, moves));
      moves := Onwards(s, moves, again);
    }
    var u := Run(s, moves);
    assert u.shared.indicator != u.mind.last && u.mind.pc == Look(n);
    moves := Then(s, moves, ControlStep);
    moves := Then(s, moves, ControlStep);
    RunInv(s, moves);
  }

  /** So can one that is about to take it. */
  lemma MarkCanEnd(s: State, n: nat) returns (moves: seq<Move>)
    requires Waits(s, Mark(n))
    ensures var r := Run(s, moves);
            && Inv(r) && r.shared.mutex.Nobody? && SameErrand(s, r)
            && (if n == 0 then r.mind.pc == Mark(1) else Returned(r))
  {
    moves := FlipOnce(s);
    moves := Then(s, moves, ControlStep);
    moves := Then(s, moves, ControlStep);
    RunInv(s, moves);
    var look := LookCanEnd(Run(s, moves), n);
    moves := Onwards(s, moves, look);
  }

  lemma WaitCanEnd(s: State, n: nat, marked: bool) returns (moves: seq<Move>)
    requires Waits(s, if marked then Look(n) else Mark(n))
    ensures var r := Run(s, moves); Returned(r) && SameErrand(s, r)
  {
    if marked { moves := LookCanEnd(s, n); } else { moves := MarkCanEnd(s, n); }
    if n == 0 {
      var second := MarkCanEnd(Run(s, moves), 1);
      moves := Onwards(s, moves, second);
    }
  }

  /** From the next step of control, if that only lets go of the channels. */
  lemma ThenWaits(s: State, n: nat, marked: bool) returns (moves: seq<Move>)
    requires Inv(s) && Waits(ControlStepOf(s), if marked then Look(n) else Mark(n)) && SameErrand(s, ControlStepOf(s))
    ensures var r := Run(s, moves); Returned(r) && SameErrand(s, r)
  {
    moves := Then(s, [], ControlStep);
    var rest := WaitCanEnd(ControlStepOf(s), n, marked);
    moves := Onwards(s, moves, rest);
  }

  /** FreezeAll can return, from wherever control is inside it and wherever the engine is, if
      control does not hold the gate. */
  lemma FreezeCanReturn(s: State) returns (moves: seq<Move>)
    requires Inv(s) && (s.mind.pc == Set(true) || Asking(s.mind.pc)) && !s.shared.cycle.ByControl?
    ensures var r := Run(s, moves); Returned(r) && SameErrand(s, r)
  {
    StepInv(s, ControlStep);
    match s.mind.pc
    case Set(_) =>
      moves := FlipOnce(s);
      moves := Then(s, moves, ControlStep);
      RunInv(s, moves);
      StepInv(Run(s, moves), ControlStep);
      var rest := ThenWaits(Run(s, moves), 0, false);
      moves := Onwards(s, moves, rest);
    case SetHeld(_) => moves := ThenWaits(s, 0, false);
    case Mark(n) => moves := WaitCanEnd(s, n, false);
    case MarkHeld(n) => moves := ThenWaits(s, n, true);
    case Look(n) => moves := WaitCanEnd(s, n, true);
    case LookHeld(n) =>
      if s.mind.current == s.mind.last {
        moves := ThenWaits(s, n, true);
      } else if n == 0 {
        moves := ThenWaits(s, 1, false);
      } else {
        moves := Then(s, [], ControlStep);
      }
  }

  // ------------------------------------------------ a reset is served and over

  /** A reset that waits is over when a period has been rendered: with the channel thawed and
      control idle, within thirteen steps of the engine, and no host change waits any more. */
  lemma ResetIsServed(s: State) returns (moves: seq<Move>)
    requires Inv(s) && !s.shared.asked && s.mind.pc.Ready? && !s.shared.cycle.ByControl?
    ensures |moves| <= 13 && (forall i :: 0 <= i < |moves| ==> moves[i] == EngineStep(true))
    ensures var r := Run(s, moves);
            && Inv(r) && r.mind == s.mind && r.engine.Top? && !r.shared.asked && !r.shared.cycle.ByControl?
            && !r.shared.resetting && (s.engine.Rendering? || !r.shared.hostNeedsUpdate)
  {
    moves := ThawIsSeen(s);
    var t := Run(s, moves);
    if t.engine.Walking? { moves := Then(s, moves, EngineStep(true)); }
    moves := Then(s, moves, EngineStep(true));
    RunInv(s, moves);
  }

  /** Moves in which control starts nothing new and no client changes the rate. */
  predicate Quiet(moves: seq<Move>) { forall i :: 0 <= i < |moves| ==> !moves[i].Calls? && !moves[i].DriverChange? }

  /** UpdateHostInfo up to where its freeze has returned, with no reset pending. */
  predicate Updating(s: State) {
    && !s.shared.resetting && !s.shared.hostNeedsUpdate
    && ((s.mind.todo == [Freeze, Reset] && s.mind.pc.Ready?)
        || (s.mind.todo == [Reset] && (s.mind.pc == Set(true) || Asking(s.mind.pc) || AtResetAudio(s))))
  }

  lemma UpdatingStep(s: State, m: Move)
    requires Inv(s) && Updating(s) && !AtResetAudio(s) && !m.Calls? && !m.DriverChange?
    ensures Updating(Step(s, m))
  {
  }

  /** With no reset pending and no rate change on the way UpdateHostInfo thaws what it froze. */
  lemma {:induction false} HostUpdateThaws(s: State, moves: seq<Move>)
    requires Inv(s) && Updating(s) && Quiet(moves)
    requires Run(s, moves).mind.pc.Ready? && Run(s, moves).mind.todo == []
    ensures !Run(s, moves).shared.asked
    decreases |moves|
  {
    if AtResetAudio(s) {
      HostUpdateThawsUnlessResetPending(s, moves);
    } else if moves != [] {
      UpdatingStep(s, moves[0]);
      StepInv(s, moves[0]);
      HostUpdateThaws(Step(s, moves[0]), moves[1..]);
    }
  }

  /** So from any state in which control is idle and the channel thawed, a reset pending or
      not, the engine can render one period, and every host update after that thaws. */
  lemma RenderedResetThaws(s: State) returns (moves: seq<Move>)
    requires Inv(s) && !s.shared.asked && s.mind.pc.Ready? && s.mind.todo == [] && !s.shared.cycle.ByControl?
    ensures |moves| <= 26 && forall i :: 0 <= i < |moves| ==> moves[i] == EngineStep(true)
    ensures forall after :: Quiet(after) ==>
              var r := Run(Step(Run(s, moves), Calls([Freeze, Reset])), after);
              r.mind.pc.Ready? && r.mind.todo == [] ==> !r.shared.asked
  {
    moves := ResetIsServed(s);
    var again := ResetIsServed(Run(s, moves));
    moves := Onwards(s, moves, again);
    var t := Run(s, moves);
    RunInv(s, moves);
    var u := Step(t, Calls([Freeze, Reset]));
    StepInv(t, Calls([Freeze, Reset]));
    forall after | Quiet(after) && Run(u, after).mind.pc.Ready? && Run(u, after).mind.todo == []
      ensures !Run(u, after).shared.asked
    {
      HostUpdateThaws(u, after);
    }
  }

  /** Inside FreezeAll with the gate in hand: the indicator has not moved since the mark. */
  predicate Gated(s: State) {
    && s.shared.cycle.ByControl? && (s.mind.pc == Set(true) || Asking(s.mind.pc))
    && (s.mind.pc.MarkHeld? || s.mind.pc.Look? || s.mind.pc.LookHeld? ==> s.mind.last == s.shared.indicator)
    && (s.mind.pc.LookHeld? ==> s.mind.current == s.mind.last)
  }

  lemma {:induction false} GatedRun(s: State, moves: seq<Move>)
    requires Inv(s) && Gated(s)
    ensures Gated(Run(s, moves))
    decreases |moves|
  {
    if moves != [] {
      StepInv(s, moves[0]);
      GatedStep(s, moves[0]);
      GatedRun(Step(s, moves[0]), moves[1..]);
    }
  }

  lemma GatedStep(s: State, m: Move)
    requires Inv(s) && Gated(s)
    ensures Gated(Step(s, m))
  {
  }

  /** A call of FreezeAll can return if and only if control does not hold the gate: with it in
      hand, no interleaving at all brings it back. */
  lemma FreezeReturnsExact(s: State)
    requires Inv(s) && s.mind.pc == Set(true)
    ensures (exists moves :: Returned(Run(s, moves))) <==> !s.shared.cycle.ByControl?
  {
    if s.shared.cycle.ByControl? {
      forall moves ensures !Returned(Run(s, moves)) { GatedRun(s, moves); }
    } else {
      var moves := FreezeCanReturn(s);
    }
  }

  /** The stuck state is reachable: a native client changes the rate, the engine raises
      the reset flag in a period it does not render, and the settings are applied. */
  lemma StuckIsReachable() returns (moves: seq<Move>)
    ensures Stuck(Run(START, moves)) && Run(START, moves).mind.todo == []
  {
    moves := Then(START, [], DriverChange);
    moves := Then(START, moves, EngineStep(false));
    moves := Then(START, moves, EngineStep(false));
    moves := Then(START, moves, EngineStep(false));
    moves := Then(START, moves, EngineStep(false));
    moves := Then(START, moves, EngineStep(false));
    moves := Then(START, moves, EngineStep(false));
    assert Run(START, moves).engine.Top? && Run(START, moves).shared.resetting;
    moves := Then(START, moves, Calls([Freeze, Reset]));
    moves := Then(START, moves, ControlStep);
    RunInv(START, moves);
    var s := Run(START, moves);
    assert s.mind.pc == Set(true) && s.mind.todo == [Reset];
    var freeze := FreezeCanReturn(s);
    RunAppend(START, moves, freeze);
    moves := moves + freeze;
    assert Run(START, moves).mind.owned;
    moves := Then(START, moves, ControlStep);
  }
}

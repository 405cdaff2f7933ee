/** The lock-free evidence that one Browser action spanned a capture: actions count
    themselves under a lock, observers read the two counters without it. */
module ActionSample {
  import opened Basics

  /** Where the action that holds the engine's lock is. */
  datatype Phase = Free | Locked(t: nat) | Counted(t: nat) | Flying(t: nat) | Landed(t: nat)

  /** Where an observer is. `first` is the action it found in flight at its first
      load (0 for none), `begun` how many had begun when its capture began, and
      `finished` how many had finished when the capture ended. */
  datatype Observer = Fresh
                    | Flight1(first: nat)
                    | Sampled(first: nat, started: nat)
                    | Capturing(first: nat, started: nat, begun: nat)
                    | Captured(first: nat, started: nat, begun: nat, finished: nat)
                    | Flight2(first: nat, started: nat, begun: nat, finished: nat, flying: bool, second: nat)
                    | Reported(executing: bool, started: nat, begun: nat, finished: nat)

  /** Action number `n` had begun before the capture and had not finished after it. */
  predicate Spans(n: nat, begun: nat, finished: nat) {
    finished < n <= begun
  }

  datatype State = State(started: nat, inFlight: nat, finished: nat, phase: Phase, observers: map<nat, Observer>)
  {
    function At(o: nat): Observer { if o in observers then observers[o] else Fresh }

    function With(o: nat, observer: Observer): State { this.(observers := observers[o := observer]) }
  }

  const IDLE := State(0, 0, 0, Free, map[])

  class Engine {
    var started: nat
    var inFlight: nat
    /** Not in the program: how many actions have finished, and where each thread is. */
    var finished: nat
    var phase: Phase
    var observers: map<nat, Observer>

    constructor ()
      ensures Valid() && View() == IDLE
    {
      started, inFlight, finished, phase, observers := 0, 0, 0, Free, map[];
    }

    function View(): State
      reads this
    {
      State(started, inFlight, finished, phase, observers)
    }

    /** Actions are numbered as they begin; at most one has begun and not finished. */
    ghost predicate Counting()
      reads this
    {
      match phase
      case Free => started == finished && inFlight == 0
      case Locked(_) => started == finished && inFlight == 0
      case Counted(_) => started == finished + 1 && inFlight == 0
      case Flying(_) => started == finished + 1 && inFlight == 1
      case Landed(_) => started == finished && inFlight == 0
    }

    /** What an observer has seen is still true of the past. */
    ghost predicate Faithful(o: nat)
      reads this
    {
      o in observers ==>
        match observers[o]
        case Fresh => true
        case Flight1(first) => StillFirst(first)
        case Sampled(first, s) => s <= started && StillFirst(first) && (Lasts(first) ==> s == first)
        case Capturing(first, s, b) => s <= b <= started && StillFirst(first) && (Lasts(first) ==> s == first)
        case Captured(first, s, b, f) => s <= b <= started && f <= finished && StillFirst(first) && (Lasts(first) ==> s == first)
        case Flight2(first, s, b, f, flying, second) =>
          && s <= b <= second <= started && StillFirst(first) && (flying ==> f < second)
          && (Lasts(first) ==> s == first && flying)
        case Reported(executing, s, b, f) => executing ==> Spans(s, b, f)
    }

    /** The action found in flight at first has begun. */
    ghost predicate StillFirst(first: nat)
      reads this
    {
      first <= started && (Lasts(first) ==> phase.Flying? && started == first)
    }

    /** It has not finished yet. */
    ghost predicate Lasts(first: nat)
      reads this
    {
      first > finished
    }

    ghost predicate Valid()
      reads this
    {
      Counting() && forall o :: Faithful(o)
    }

    // ---------- Actions ----------

    method Lock(t: nat)
      requires Valid() && phase.Free?
      modifies `phase
      ensures Valid() && phase == Locked(t)
    {
      phase := Locked(t);
      assert forall o :: old(Faithful(o)) ==> Faithful(o);
    }

    /** A closed engine lets the action go uncounted. */
    method Refuse()
      requires Valid() && phase.Locked?
      modifies `phase
      ensures Valid() && phase.Free?
    {
      phase := Free;
      assert forall o :: old(Faithful(o)) ==> Faithful(o);
    }

    method CountStart()
      requires Valid() && phase.Locked?
      modifies `phase, `started
      ensures Valid() && phase == Counted(old(phase.t)) && started == old(started) + 1
    {
      started := started + 1;
      phase := Counted(phase.t);
      assert forall o :: old(Faithful(o)) ==> Faithful(o);
    }

    method TakeOff()
      requires Valid() && phase.Counted?
      modifies `phase, `inFlight
      ensures Valid() && phase == Flying(old(phase.t)) && inFlight == old(inFlight) + 1
    {
      inFlight := inFlight + 1;
      phase := Flying(phase.t);
      assert forall o :: old(Faithful(o)) ==> Faithful(o);
    }

    method Land()
      requires Valid() && phase.Flying?
      modifies `phase, `inFlight, `finished
      ensures Valid() && phase == Landed(old(phase.t)) && finished == started
      ensures inFlight == old(inFlight) - 1 && finished == old(finished) + 1
    {
      inFlight := inFlight - 1;
      finished := finished + 1;
      phase := Landed(phase.t);
      assert forall o :: old(Faithful(o)) ==> Faithful(o);
    }

    method Unlock()
      requires Valid() && phase.Landed?
      modifies `phase
      ensures Valid() && phase.Free?
    {
      phase := Free;
      assert forall o :: old(Faithful(o)) ==> Faithful(o);
    }

    // ---------- Observers ----------

    function At(o: nat): Observer
      reads this
    {
      if o in observers then observers[o] else Fresh
    }

    method Become(o: nat, observer: Observer)
      requires Valid()
      modifies `observers
      ensures observers == old(observers)[o := observer] && Counting()
      ensures forall p :: p != o ==> Faithful(p)
    {
      observers := observers[o := observer];
      assert forall p :: old(Faithful(p)) && p != o ==> Faithful(p);
    }

    /** The counter of actions in flight is loaded first, then the one of starts. */
    method LoadFlight1(o: nat) returns (flying: bool)
      requires Valid() && At(o).Fresh?
      modifies `observers
      ensures Valid() && flying == (inFlight > 0) && observers == old(observers)[o := Flight1(if flying then started else 0)]
    {
      flying := inFlight > 0;
      Become(o, Flight1(if flying then started else 0));
      assert Faithful(o);
    }

    method LoadStarted1(o: nat) returns (s: nat)
      requires Valid() && At(o).Flight1?
      modifies `observers
      ensures Valid() && s == started && observers == old(observers)[o := Sampled(old(At(o).first), s)]
    {
      assert Faithful(o);
      s := started;
      Become(o, Sampled(At(o).first, s));
      assert Faithful(o);
    }

    method BeginCapture(o: nat)
      requires Valid() && At(o).Sampled?
      modifies `observers
      ensures Valid() && observers == old(observers)[o := Capturing(old(At(o).first), old(At(o).started), started)]
    {
      assert Faithful(o);
      Become(o, Capturing(At(o).first, At(o).started, started));
      assert Faithful(o);
    }

    method EndCapture(o: nat)
      requires Valid() && At(o).Capturing?
      modifies `observers
      ensures Valid() && observers == old(observers)[o := Captured(old(At(o).first), old(At(o).started), old(At(o).begun), finished)]
    {
      assert Faithful(o);
      Become(o, Captured(At(o).first, At(o).started, At(o).begun, finished));
      assert Faithful(o);
    }

    method LoadFlight2(o: nat) returns (flying: bool)
      requires Valid() && At(o).Captured?
      modifies `observers
      ensures Valid() && flying == (inFlight > 0)
      ensures observers == old(observers)[o := Flight2(old(At(o).first), old(At(o).started), old(At(o).begun), old(At(o).finished),
                                                       flying, started)]
    {
      assert Faithful(o);
      flying := inFlight > 0;
      Become(o, Flight2(At(o).first, At(o).started, At(o).begun, At(o).finished, flying, started));
      assert Faithful(o);
    }

    /** The report, from the values loaded. It is true only if one single action
        spanned the capture, and it is true whenever the action that was in flight
        at the first load still is at the last. */
    method Report(o: nat) returns (executing: bool)
      requires Valid() && At(o).Flight2?
      modifies `observers
      ensures Valid()
      ensures observers == old(observers)[o := Reported(executing, old(At(o).started), old(At(o).begun), old(At(o).finished))]
      ensures executing <==> old(At(o).first) > 0 && old(At(o).flying) && old(At(o).started) == started
      ensures executing ==> Spans(old(At(o).started), old(At(o).begun), old(At(o).finished))
      ensures old(At(o).first) > 0 && old(At(o).first) == started && phase.Flying? ==> executing
    {
      assert Faithful(o);
      var firstFlying, firstStarted, secondFlying, secondStarted := At(o).first > 0, At(o).started, At(o).flying, started;
      executing := firstFlying && secondFlying && firstStarted == secondStarted;
      Become(o, Reported(executing, At(o).started, At(o).begun, At(o).finished));
      assert Faithful(o);
    }
  }

  /** Loading the counters in the other order would not do: an action that finishes
      during the capture and another that begins after it are taken for one. */
  method SwappedLoadsMisreport() returns (executing: bool, begun: nat, finished: nat)
    ensures executing && forall n :: !Spans(n, begun, finished)
  {
    var engine := new Engine();
    engine.Lock(1);
    engine.CountStart();
    engine.TakeOff();
    var firstStarted := engine.started;
    var firstFlying := engine.inFlight > 0;
    begun := engine.started;
    engine.Land();
    finished := engine.finished;
    var secondStarted := engine.started;
    engine.Unlock();
    engine.Lock(2);
    engine.CountStart();
    engine.TakeOff();
    var secondFlying := engine.inFlight > 0;
    executing := firstFlying && secondFlying && firstStarted == secondStarted;
  }

  // ---------- Whole runs ----------

  datatype Step = LockStep(t: nat) | RefuseStep | CountStep | TakeOffStep | LandStep | UnlockStep
                | Flight1Step(o: nat) | Started1Step(o: nat) | BeginStep(o: nat) | EndStep(o: nat)
                | Flight2Step(o: nat) | ReportStep(o: nat)

  /** The step is taken if its thread is there. */
  function After(s: State, step: Step): State {
    match step
    case LockStep(t) => if s.phase.Free? then s.(phase := Locked(t)) else s
    case RefuseStep => if s.phase.Locked? then s.(phase := Free) else s
    case CountStep => if s.phase.Locked? then s.(phase := Counted(s.phase.t), started := s.started + 1) else s
    case TakeOffStep => if s.phase.Counted? then s.(phase := Flying(s.phase.t), inFlight := s.inFlight + 1) else s
    case LandStep =>
      if s.phase.Flying? && s.inFlight > 0
      then s.(phase := Landed(s.phase.t), inFlight := s.inFlight - 1, finished := s.finished + 1) else s
    case UnlockStep => if s.phase.Landed? then s.(phase := Free) else s
    case Flight1Step(o) => if s.At(o).Fresh? then s.With(o, Flight1(if s.inFlight > 0 then s.started else 0)) else s
    case Started1Step(o) => if s.At(o).Flight1? then s.With(o, Sampled(s.At(o).first, s.started)) else s
    case BeginStep(o) => if s.At(o).Sampled? then s.With(o, Capturing(s.At(o).first, s.At(o).started, s.started)) else s
    case EndStep(o) =>
      if s.At(o).Capturing? then s.With(o, Captured(s.At(o).first, s.At(o).started, s.At(o).begun, s.finished)) else s
    case Flight2Step(o) =>
      if s.At(o).Captured?
      then s.With(o, Flight2(s.At(o).first, s.At(o).started, s.At(o).begun, s.At(o).finished, s.inFlight > 0, s.started)) else s
    case ReportStep(o) =>
      if s.At(o).Flight2?
      then s.With(o, Reported(s.At(o).first > 0 && s.At(o).flying && s.At(o).started == s.started,
                              s.At(o).started, s.At(o).begun, s.At(o).finished)) else s
  }

  function Reached(steps: seq<Step>): State {
    if steps == [] then IDLE else After(Reached(steps[..|steps| - 1]), steps[|steps| - 1])
  }

  /** Any interleaving of actions and observers leads where its steps lead, and every
      report of an action in flight is of one action that spanned the capture. */
  method Run(steps: seq<Step>) returns (engine: Engine)
    ensures fresh(engine) && engine.Valid() && engine.View() == Reached(steps)
    ensures forall o :: Reached(steps).At(o).Reported? && Reached(steps).At(o).executing ==>
              Spans(Reached(steps).At(o).started, Reached(steps).At(o).begun, Reached(steps).At(o).finished)
  {
    engine := new Engine();
    var i := 0;
    while i < |steps|
      invariant 0 <= i <= |steps| && fresh(engine) && engine.Valid() && engine.View() == Reached(steps[..i])
    {
      Take(engine, steps[i]);
      assert steps[..i + 1][..i] == steps[..i];
      i := i + 1;
    }
    assert steps[..|steps|] == steps;
    forall o: nat | engine.At(o).Reported? && engine.At(o).executing
      ensures Spans(engine.At(o).started, engine.At(o).begun, engine.At(o).finished)
    {
      assert engine.Faithful(o);
    }
    assert forall o :: Reached(steps).At(o) == engine.At(o);
  }

  method Take(engine: Engine, step: Step)
    requires engine.Valid()
    modifies engine
    ensures engine.Valid() && engine.View() == After(old(engine.View()), step)
  {
    assert forall o :: engine.View().At(o) == engine.At(o);
    match step {
      case LockStep(t) => if engine.phase.Free? { engine.Lock(t); }
      case RefuseStep => if engine.phase.Locked? { engine.Refuse(); }
      case CountStep => if engine.phase.Locked? { engine.CountStart(); }
      case TakeOffStep => if engine.phase.Counted? { engine.TakeOff(); }
      case LandStep => if engine.phase.Flying? { engine.Land(); }
      case UnlockStep => if engine.phase.Landed? { engine.Unlock(); }
      case Flight1Step(o) => if engine.At(o).Fresh? { var _ := engine.LoadFlight1(o); }
      case Started1Step(o) => if engine.At(o).Flight1? { var _ := engine.LoadStarted1(o); }
      case BeginStep(o) => if engine.At(o).Sampled? { engine.BeginCapture(o); }
      case EndStep(o) => if engine.At(o).Capturing? { engine.EndCapture(o); }
      case Flight2Step(o) => if engine.At(o).Captured? { var _ := engine.LoadFlight2(o); }
      case ReportStep(o) => if engine.At(o).Flight2? { var _ := engine.Report(o); }
    }
  }
}

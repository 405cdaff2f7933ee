/** Admission of requests to a Browser Runtime and the accounting of blocked
    clicks, against the history of what was asked. */
module RuntimeServer {
  import opened Basics
  import opened RequestHistory

  datatype Identity = Identity(run: nat, attachment: nat, session: nat, sessionEpoch: nat, controlEpoch: nat)
  {
    function Scope(): Scope { RequestHistory.Scope(run, attachment, sessionEpoch, controlEpoch) }

    function Place(): Place { RequestHistory.Place(session, sessionEpoch) }
  }

  datatype ActionKind = Single | Batch(size: nat) | Click | Checkpoint | CloseAction

  /** What is sent with an exhausted click budget. */
  datatype ClickFailure = ClickFailure(category: nat, pageState: nat, generation: nat, navigationLeft: int, runLeft: int)
  {
    /** The part of a failure's validation that concerns it; 0 stands for absent. */
    predicate Validates() {
      category != 0 && pageState != 0 && generation != 0 && 0 <= navigationLeft <= 3 && 0 <= runLeft <= 12
    }
  }

  datatype Verdict = Accepted | Replayed | CloseExhausted | LimitExceeded | ClickExhausted(failure: ClickFailure) | Invalid

  // ---------- Admission ----------

  /** What the server keeps of the present attachment. */
  datatype Admission = Admission(scope: Option<Scope>, seen: set<nat>, actions: nat, viewers: nat, closes: nat, terminal: bool)

  /** Another attachment starts from nothing. */
  function Entered(a: Admission, scope: Scope): Admission {
    if a.scope == Some(scope) then a else Admission(Some(scope), {}, 0, 0, 0, false)
  }

  function Charged(a: Admission, what: What): Admission {
    match what
    case Action(id, cost) => a.(seen := a.seen + {id}, actions := a.actions + cost)
    case Close(id) => a.(seen := a.seen + {id}, closes := a.closes + 1, terminal := a.terminal || a.closes + 1 == CLOSE_LIMIT)
    case Viewer(id) => a.(seen := a.seen + {id}, viewers := a.viewers + 1)
    case Terminated => a.(terminal := true)
    case _ => a
  }

  predicate Chargeable(a: Admission, limit: nat, what: What) {
    match what
    case Action(id, cost) => id !in a.seen && a.actions + cost <= limit && !a.terminal
    case Close(id) => id !in a.seen && a.closes < CLOSE_LIMIT
    case Viewer(id) => id !in a.seen && a.viewers < VIEWER_LIMIT
    case _ => true
  }

  /** The kept fields are what these events, all of one attachment, add up to. */
  ghost predicate Tallies(a: Admission, events: seq<Entry>, limit: nat) {
    && Admitted(events, limit) && (forall id :: id in a.seen <==> id in Ids(events))
    && a.actions == Cost(events) && a.closes == Closes(events) && a.viewers == Viewers(events)
    && (a.terminal <==> Over(events))
  }

  ghost predicate Admissions(a: Admission, log: seq<Entry>, limit: nat) {
    (if log == [] then a.scope == None else a.scope == log[|log| - 1].scope) && Tallies(a, ScopeTail(log), limit)
  }

  lemma ChargeTallies(a: Admission, events: seq<Entry>, limit: nat, e: Entry)
    requires Tallies(a, events, limit) && Chargeable(a, limit, e.what)
    ensures Tallies(Charged(a, e.what), events + [e], limit)
  {
    CountsAfter(events, e);
    AdmittedAfter(events, e, limit);
    assert [e][..0] == [];
  }

  lemma NothingTallies(scope: Option<Scope>, limit: nat)
    ensures Tallies(Admission(scope, {}, 0, 0, 0, false), [], limit)
  {
  }

  lemma ChargedScope(a: Admission, what: What)
    ensures Charged(a, what).scope == a.scope
  {
  }

  lemma NoTail()
    ensures ScopeTail([]) == []
  {
  }

  /** One event, in its attachment. */
  lemma AdmissionStep(a: Admission, log: seq<Entry>, limit: nat, e: Entry)
    requires Admissions(a, log, limit)
    requires e.scope.Some? ==> Chargeable(Entered(a, e.scope.value), limit, e.what)
    requires e.scope.None? ==> a.scope.None? && Chargeable(a, limit, e.what)
    ensures Admissions(Charged(if e.scope.Some? then Entered(a, e.scope.value) else a, e.what), log + [e], limit)
  {
    hide Tallies, Charged, Chargeable, ScopeTail;
    ScopeTailAfter(log, e);
    NothingTallies(e.scope, limit);
    ChargedScope(if e.scope.Some? then Entered(a, e.scope.value) else a, e.what);
    if log == [] {
      NoTail();
      ChargeTallies(if e.scope.Some? then Entered(a, e.scope.value) else a, [], limit, e);
    } else if e.scope == log[|log| - 1].scope {
      ChargeTallies(a, ScopeTail(log), limit, e);
    } else {
      ChargeTallies(Admission(e.scope, {}, 0, 0, 0, false), [], limit, e);
      assert [] + [e] == [e];
    }
  }

  lemma RefusedIsFree(a: Admission, limit: nat)
    ensures Chargeable(a, limit, Refused) && Charged(a, Refused) == a
  {
  }

  /** When the close attempts are used up the attachment is over already. */
  lemma FullIsTerminal(a: Admission, log: seq<Entry>, limit: nat)
    requires Admissions(a, log, limit)
    ensures a.closes >= CLOSE_LIMIT ==> a.terminal
  {
  }

  // ---------- Blocked clicks ----------

  datatype Budget = Budget(run: Option<nat>, clicks: nat, place: Option<Place>, engine: nat, generation: nat,
                           pageClicks: nat, pageState: nat, category: nat)
  {
    function Page(): Page { RequestHistory.Page(run, place, engine, generation) }

    predicate Exhausted() { pageClicks >= NAVIGATION_CLICK_LIMIT || clicks >= RUN_CLICK_LIMIT }
  }

  const NO_CLICKS := Budget(None, 0, None, 0, 0, 0, 0, 0)

  function Placed(b: Budget, place: Place): Budget {
    if b.place == Some(place) then b else b.(place := Some(place), engine := 0, generation := 0, pageClicks := 0)
  }

  function Prepared(b: Budget, identity: Identity): Budget {
    Placed(if b.run == Some(identity.run) then b else NO_CLICKS.(run := Some(identity.run)), identity.Place())
  }

  /** A reported engine and generation are acceptable unless the generation is
      missing or has gone back. */
  predicate Acceptable(b: Budget, engine: nat, generation: nat) {
    generation != 0 && (b.engine == Instance(engine) ==> b.generation <= generation)
  }

  /** An engine that does not say which one it is counts as the first. */
  function Instance(engine: nat): nat { if engine == 0 then 1 else engine }

  function Moved(b: Budget, engine: nat, generation: nat): Budget {
    if b.engine == Instance(engine) && b.generation == generation then b
    else b.(engine := Instance(engine), generation := generation, pageClicks := 0)
  }

  ghost predicate Budgets(b: Budget, log: seq<Entry>) {
    && (if log == [] then b == NO_CLICKS else b.Page() == log[|log| - 1].page)
    && b.clicks == Clicks(RunTail(log)) && b.pageClicks == Clicks(PageTail(log)) && Plausible(b)
    && forall i :: Forward(log, i)
  }

  predicate Plausible(b: Budget) {
    && (0 < b.clicks ==> b.category != 0 && b.pageState != 0)
    && (b.engine == 0 <==> b.generation == 0) && (b.engine == 0 ==> b.pageClicks == 0)
  }

  /** From `b` to `c` the Run's clicks start again with another Run, the page's with
      another page, and no generation goes back. */
  predicate Advances(b: Budget, c: Budget, blocked: bool) {
    && Plausible(c) && NotBack(b.Page(), c.Page())
    && c.clicks == (if c.run == b.run then b.clicks else 0) + (if blocked then 1 else 0)
    && c.pageClicks == (if c.Page() == b.Page() then b.pageClicks else 0) + (if blocked then 1 else 0)
  }

  lemma BudgetStep(b: Budget, log: seq<Entry>, c: Budget, e: Entry)
    requires Budgets(b, log) && Advances(b, c, e.what.Blocked?) && e.page == c.Page()
    ensures Budgets(c, log + [e])
  {
    RunClicksAfter(log, e);
    PageClicksAfter(log, e);
    ForwardStep(log, e);
  }

  function Rebased(b: Budget): Budget { b.(engine := 0, generation := 0, pageClicks := 0) }

  function Counted(b: Budget, pageState: nat, category: nat): Budget {
    b.(clicks := b.clicks + 1, pageClicks := b.pageClicks + 1, pageState := pageState, category := category)
  }

  lemma StepsAdvance(b: Budget, log: seq<Entry>, identity: Identity, engine: nat, generation: nat, pageState: nat, category: nat)
    requires Budgets(b, log)
    ensures Advances(b, b, false)
    ensures var p := Prepared(b, identity);
            && Advances(b, p, false) && Advances(b, Rebased(p), false)
            && (Acceptable(p, engine, generation) && pageState != 0 ==>
                  && Advances(b, Moved(p, engine, generation).(pageState := pageState), false)
                  && (category != 0 ==> Advances(b, Counted(Moved(p, engine, generation), pageState, category), true)))
  {
  }

  lemma BudgetsCount(b: Budget, log: seq<Entry>)
    requires Budgets(b, log)
    ensures b.clicks == Clicks(RunTail(log)) && b.pageClicks == Clicks(PageTail(log))
  {
  }

  /** A spent budget has a blocked click in the Run, whose evidence is kept. */
  lemma ExhaustedHasClicks(b: Budget, log: seq<Entry>)
    requires Budgets(b, log)
    ensures b.pageClicks <= b.clicks && (b.Exhausted() ==> b.category != 0 && b.pageState != 0)
  {
    PageClicksWithinRun(log);
  }

  lemma ForwardStep(log: seq<Entry>, e: Entry)
    requires (forall i :: Forward(log, i)) && (log != [] ==> NotBack(log[|log| - 1].page, e.page))
    ensures forall i :: Forward(log + [e], i)
  {
    forall i
      ensures Forward(log + [e], i)
    {
      assert Forward(log, i);
    }
  }

  // ---------- What a connection does ----------

  datatype State = State(limit: nat, requests: Admission, budget: Budget, log: seq<Entry>)
  {
    /** The next event, with what holds after it. */
    function Logged(a: Admission, b: Budget, what: What): State {
      this.(requests := a, budget := b, log := log + [Entry(what, a.scope, b.Page())])
    }
  }

  /** Why a request that cannot be charged is refused. */
  function Refusal(a: Admission, id: nat, kind: ActionKind): Verdict {
    if id in a.seen then Replayed else if kind.CloseAction? || a.terminal then CloseExhausted else LimitExceeded
  }

  function Evidence(b: Budget): ClickFailure {
    ClickFailure(b.category, b.pageState, b.generation, Max(0, NAVIGATION_CLICK_LIMIT - b.pageClicks), Max(0, RUN_CLICK_LIMIT - b.clicks))
  }

  /** A click beyond the budget is charged and then refused. */
  function Reserving(s: State, identity: Identity, id: nat, kind: ActionKind): (State, Verdict) {
    var entered, prepared := Entered(s.requests, identity.Scope()), Prepared(s.budget, identity);
    if !Chargeable(entered, s.limit, Asked(id, kind)) then (s.Logged(entered, prepared, Refused), Refusal(entered, id, kind))
    else
      (s.Logged(Charged(entered, Asked(id, kind)), prepared, Asked(id, kind)),
       if kind.Click? && prepared.Exhausted() then ClickExhausted(Evidence(prepared)) else Accepted)
  }

  function ReservingViewer(s: State, identity: Identity, id: nat): (State, Verdict) {
    var entered := Entered(s.requests, identity.Scope());
    if Chargeable(entered, s.limit, Viewer(id)) then (s.Logged(Charged(entered, Viewer(id)), s.budget, Viewer(id)), Accepted)
    else (s.Logged(entered, s.budget, Refused), if id in entered.seen then Replayed else LimitExceeded)
  }

  function Resetting(s: State, identity: Identity): State {
    s.Logged(s.requests, Rebased(Prepared(s.budget, identity)), Reset)
  }

  function Observing(s: State, identity: Identity, engine: nat, generation: nat, pageState: nat): State {
    var p := Prepared(s.budget, identity);
    if Acceptable(p, engine, generation) then s.Logged(s.requests, Moved(p, engine, generation).(pageState := pageState), Reported)
    else s.Logged(s.requests, p, Refused)
  }

  function CountingClick(s: State, identity: Identity, engine: nat, generation: nat, pageState: nat, category: nat): State {
    var p := Prepared(s.budget, identity);
    if Acceptable(p, engine, generation)
    then s.Logged(s.requests, Counted(Moved(p, engine, generation), pageState, category), Blocked)
    else s.Logged(s.requests, p, Refused)
  }

  /** What the engine's answer to an accepted action leads to. */
  function Answering(s: State, identity: Identity, kind: ActionKind, outcome: EngineOutcome): State {
    match outcome
    case Observed(engine, generation, pageState) =>
      if kind.CloseAction? then s
      else
        var t := Observing(s, identity, engine, generation, pageState);
        if kind.Checkpoint? && Acceptable(Prepared(s.budget, identity), engine, generation) then Resetting(t, identity) else t
    case BlockedClick(engine, generation, pageState, category) =>
      if kind.Click? then CountingClick(s, identity, engine, generation, pageState, category) else s
    case ProcessReset => Resetting(s, identity)
    case Challenge(fenced) => if fenced then s.Logged(s.requests.(terminal := true), s.budget, Terminated) else s
    case OtherFailure => s
  }

  function Handling(s: State, identity: Identity, id: nat, kind: ActionKind, outcome: EngineOutcome): (State, Verdict) {
    var (t, verdict) := Reserving(s, identity, id, kind);
    (if verdict == Accepted then Answering(t, identity, kind, outcome) else t, verdict)
  }

  datatype Connection = ActionConnection(identity: Identity, id: nat, kind: ActionKind, outcome: EngineOutcome)
                      | ViewerConnection(identity: Identity, id: nat)

  function After(s: State, c: Connection): (State, Verdict) {
    match c
    case ActionConnection(identity, id, kind, outcome) => Handling(s, identity, id, kind, outcome)
    case ViewerConnection(identity, id) => ReservingViewer(s, identity, id)
  }

  function Reached(limit: nat, connections: seq<Connection>): State {
    if connections == [] then State(limit, Admission(None, {}, 0, 0, 0, false), NO_CLICKS, [])
    else After(Reached(limit, connections[..|connections| - 1]), connections[|connections| - 1]).0
  }

  class Server {
    const limit: nat

    var seenScope: Option<Scope>
    var seen: set<nat>
    var actionCount: nat
    var viewerCount: nat
    var closeCount: nat
    var terminal: bool

    var clickRun: Option<nat>
    var runCount: nat
    var clickPlace: Option<Place>
    var engine: nat
    var generation: nat
    var navigationCount: nat
    var pageState: nat
    var category: nat

    ghost var log: seq<Entry>

    constructor (limit: nat)
      ensures Valid() && log == [] && this.limit == limit
      ensures ClickBudget() == NO_CLICKS && Requests() == Admission(None, {}, 0, 0, 0, false)
    {
      this.limit := limit;
      seenScope, seen, actionCount, viewerCount, closeCount, terminal := None, {}, 0, 0, 0, false;
      clickRun, runCount, clickPlace, engine, generation, navigationCount := None, 0, None, 0, 0, 0;
      pageState, category, log := 0, 0, [];
    }

    ghost function Requests(): Admission
      reads this
    {
      Admission(seenScope, seen, actionCount, viewerCount, closeCount, terminal)
    }

    function ClickBudget(): Budget
      reads this
    {
      Budget(clickRun, runCount, clickPlace, engine, generation, navigationCount, pageState, category)
    }

    ghost function View(): State
      reads this
    {
      State(limit, Requests(), ClickBudget(), log)
    }

    ghost predicate Valid()
      reads this
    {
      Admissions(Requests(), log, limit) && Budgets(ClickBudget(), log)
    }

    // ---------- Steps under the server's mutex ----------

    method EnterScope(scope: Scope)
      modifies `seenScope, `seen, `actionCount, `viewerCount, `closeCount, `terminal
      ensures Requests() == Entered(old(Requests()), scope)
    {
      if seenScope != Some(scope) {
        seenScope, seen, actionCount, viewerCount, closeCount, terminal := Some(scope), {}, 0, 0, 0, false;
      }
    }

    method PrepareClickScope(identity: Identity)
      modifies `clickRun, `runCount, `clickPlace, `engine, `generation, `navigationCount, `pageState, `category
      ensures ClickBudget() == Prepared(old(ClickBudget()), identity)
    {
      if clickRun != Some(identity.run) {
        clickRun, runCount, pageState, category := Some(identity.run), 0, 0, 0;
        clickPlace, engine, generation, navigationCount := None, 0, 0, 0;
      }
      if clickPlace != Some(identity.Place()) {
        clickPlace, engine, generation, navigationCount := Some(identity.Place()), 0, 0, 0;
      }
    }

    method AcceptEngineState(instance: nat, reported: nat) returns (ok: bool)
      modifies `engine, `generation, `navigationCount
      ensures ok == Acceptable(old(ClickBudget()), instance, reported)
      ensures ClickBudget() == if ok then Moved(old(ClickBudget()), instance, reported) else old(ClickBudget())
    {
      if reported == 0 {
        return false;
      }
      var current := if instance == 0 then 1 else instance;
      if engine != current {
        engine, generation, navigationCount := current, reported, 0;
        return true;
      }
      if reported < generation {
        return false;
      }
      if reported > generation {
        generation, navigationCount := reported, 0;
      }
      return true;
    }

    // ---------- Requests ----------

    /** Charges a request to its attachment, or refuses it. A click beyond the budget
        is charged and then refused. */
    method ReserveRequest(identity: Identity, id: nat, kind: ActionKind) returns (verdict: Verdict)
      requires Valid()
      modifies this
      ensures Valid() && ClickBudget() == Prepared(old(ClickBudget()), identity)
      ensures (View(), verdict) == Reserving(old(View()), identity, id, kind)
      ensures var entered := Entered(old(Requests()), identity.Scope());
              && (verdict == Accepted || verdict.ClickExhausted? <==> Chargeable(entered, limit, Asked(id, kind)))
              && (verdict == Replayed <==> id in entered.seen)
              && Requests() == if Chargeable(entered, limit, Asked(id, kind)) then Charged(entered, Asked(id, kind)) else entered
      ensures verdict.ClickExhausted? ==> kind.Click? && ClickBudget().Exhausted() && (verdict.failure.Validates() <==> generation != 0)
      ensures verdict == Accepted && kind.Click? ==> !ClickBudget().Exhausted()
      ensures log == old(log) + [Entry(if verdict == Accepted || verdict.ClickExhausted? then Asked(id, kind) else Refused,
                                       Some(identity.Scope()), ClickBudget().Page())]
    {
      hide Admissions, Budgets, Prepared;
      verdict := Reserve(identity, id, kind);
      if verdict == Accepted && kind.Click? && (navigationCount >= NAVIGATION_CLICK_LIMIT || runCount >= RUN_CLICK_LIMIT) {
        ExhaustedHasClicks(ClickBudget(), log);
        verdict := ClickExhausted(ClickRetryFailure());
      }
    }

    method Reserve(identity: Identity, id: nat, kind: ActionKind) returns (verdict: Verdict)
      requires Valid()
      modifies this
      ensures Valid() && ClickBudget() == Prepared(old(ClickBudget()), identity)
      ensures var entered := Entered(old(Requests()), identity.Scope());
              && (verdict == Accepted <==> Chargeable(entered, limit, Asked(id, kind)))
              && (verdict != Accepted ==> verdict == Refusal(entered, id, kind)) && !verdict.ClickExhausted?
              && Requests() == if verdict == Accepted then Charged(entered, Asked(id, kind)) else entered
      ensures log == old(log) + [Entry(if verdict == Accepted then Asked(id, kind) else Refused,
                                       Some(identity.Scope()), ClickBudget().Page())]
    {
      FullIsTerminal(Requests(), log, limit);
      RefusedIsFree(Entered(Requests(), identity.Scope()), limit);
      hide Admissions, Budgets, Advances, Prepared, Asked, Charged, Chargeable;
      StepsAdvance(ClickBudget(), log, identity, 0, 0, 0, 0);
      verdict := Process(identity, id, kind);
      Log(old(Requests()), old(ClickBudget()), if verdict == Accepted then Asked(id, kind) else Refused);
    }

    method Process(identity: Identity, id: nat, kind: ActionKind) returns (verdict: Verdict)
      requires closeCount >= CLOSE_LIMIT ==> terminal
      modifies this
      ensures log == old(log) && ClickBudget() == Prepared(old(ClickBudget()), identity)
      ensures var entered := Entered(old(Requests()), identity.Scope());
              && (verdict == Accepted <==> Chargeable(entered, limit, Asked(id, kind)))
              && (verdict != Accepted ==> verdict == Refusal(entered, id, kind)) && !verdict.ClickExhausted?
              && Requests() == if verdict == Accepted then Charged(entered, Asked(id, kind)) else entered
    {
      EnterScope(identity.Scope());
      PrepareClickScope(identity);
      verdict := Admit(id, kind);
    }

    /** The counting part. */
    method Admit(id: nat, kind: ActionKind) returns (verdict: Verdict)
      modifies `seen, `actionCount, `closeCount, `terminal
      ensures verdict == Accepted <==> Chargeable(old(Requests()), limit, Asked(id, kind))
      ensures verdict != Accepted ==> verdict == Refusal(old(Requests()), id, kind)
      ensures verdict == Accepted ==> Requests() == Charged(old(Requests()), Asked(id, kind))
      ensures verdict != Accepted ==> Requests() == old(Requests()) || (old(closeCount) >= CLOSE_LIMIT && Requests() == old(Requests()).(terminal := true))
    {
      if id in seen {
        return Replayed;
      }
      if kind.CloseAction? {
        if closeCount >= CLOSE_LIMIT {
          terminal := true;
          return CloseExhausted;
        }
        seen, closeCount := seen + {id}, closeCount + 1;
        if closeCount == CLOSE_LIMIT {
          terminal := true;
        }
        return Accepted;
      }
      if terminal {
        return CloseExhausted;
      }
      var cost := if kind.Batch? then kind.size else 1;
      if actionCount + cost > limit {
        return LimitExceeded;
      }
      seen, actionCount := seen + {id}, actionCount + cost;
      return Accepted;
    }

    function ClickRetryFailure(): ClickFailure
      reads this
    {
      ClickFailure(category, pageState, generation,
                   Max(0, NAVIGATION_CLICK_LIMIT - navigationCount), Max(0, RUN_CLICK_LIMIT - runCount))
    }

    /** Appends an event whose effect on the fields has been carried out. */
    ghost method Log(a: Admission, b: Budget, what: What)
      requires Admissions(a, log, limit) && Budgets(b, log)
      requires if seenScope.Some?
               then Chargeable(Entered(a, seenScope.value), limit, what) && Requests() == Charged(Entered(a, seenScope.value), what)
               else a.scope.None? && Chargeable(a, limit, what) && Requests() == Charged(a, what)
      requires Advances(b, ClickBudget(), what.Blocked?)
      modifies `log
      ensures Valid() && log == old(log) + [Entry(what, seenScope, ClickBudget().Page())]
    {
      hide Admissions, Budgets;
      var e := Entry(what, seenScope, ClickBudget().Page());
      AdmissionStep(a, log, limit, e);
      BudgetStep(b, log, ClickBudget(), e);
      log := log + [e];
    }

    method ReserveViewerRequest(identity: Identity, id: nat) returns (verdict: Verdict)
      requires Valid()
      modifies this
      ensures Valid() && ClickBudget() == old(ClickBudget()) && !verdict.ClickExhausted?
      ensures (View(), verdict) == ReservingViewer(old(View()), identity, id)
      ensures var entered := Entered(old(Requests()), identity.Scope());
              && (verdict == Accepted <==> Chargeable(entered, limit, Viewer(id)))
              && (verdict != Accepted ==> verdict == if id in entered.seen then Replayed else LimitExceeded)
              && Requests() == if verdict == Accepted then Charged(entered, Viewer(id)) else entered
      ensures log == old(log) + [Entry(if verdict == Accepted then Viewer(id) else Refused,
                                       Some(identity.Scope()), ClickBudget().Page())]
    {
      hide Admissions, Budgets, Advances;
      StepsAdvance(ClickBudget(), log, identity, 0, 0, 0, 0);
      EnterScope(identity.Scope());
      if id in seen {
        verdict := Replayed;
      } else if viewerCount >= VIEWER_LIMIT {
        verdict := LimitExceeded;
      } else {
        seen, viewerCount := seen + {id}, viewerCount + 1;
        verdict := Accepted;
      }
      Log(old(Requests()), old(ClickBudget()), if verdict == Accepted then Viewer(id) else Refused);
    }

    /** A required challenge that nobody can take over ends the attachment. */
    method EndAttachment()
      requires Valid()
      modifies this
      ensures Valid() && View() == old(View()).Logged(old(Requests()).(terminal := true), old(ClickBudget()), Terminated)
    {
      hide Admissions, Budgets, Advances;
      StepsAdvance(ClickBudget(), log, Identity(0, 0, 0, 0, 0), 0, 0, 0, 0);
      terminal := true;
      Log(old(Requests()), old(ClickBudget()), Terminated);
    }

    // ---------- What the engine reports ----------

    method RecordEngineObservation(identity: Identity, instance: nat, reported: nat, state: nat) returns (ok: bool)
      requires Valid() && state != 0
      modifies this
      ensures Valid() && View() == Observing(old(View()), identity, instance, reported, state)
      ensures var p := Prepared(old(ClickBudget()), identity);
              && ok == Acceptable(p, instance, reported)
              && ClickBudget() == if ok then Moved(p, instance, reported).(pageState := state) else p
      ensures log == old(log) + [Entry(if ok then Reported else Refused, seenScope, ClickBudget().Page())]
    {
      hide Admissions, Budgets, Advances;
      StepsAdvance(ClickBudget(), log, identity, instance, reported, state, 0);
      PrepareClickScope(identity);
      ok := AcceptEngineState(instance, reported);
      if ok {
        pageState := state;
      }
      Log(old(Requests()), old(ClickBudget()), if ok then Reported else Refused);
    }

    /** A blocked click counts once in the Run and once on the page it reports, and
        says how many attempts are left. */
    method RecordBlockedClick(identity: Identity, instance: nat, reported: nat, state: nat, target: nat)
      returns (ok: bool, navigationLeft: int, runLeft: int)
      requires Valid() && state != 0 && target != 0
      modifies this
      ensures Valid() && View() == CountingClick(old(View()), identity, instance, reported, state, target)
      ensures var p := Prepared(old(ClickBudget()), identity);
              && ok == Acceptable(p, instance, reported)
              && ClickBudget() == if ok then Counted(Moved(p, instance, reported), state, target) else p
      ensures log == old(log) + [Entry(if ok then Blocked else Refused, seenScope, ClickBudget().Page())]
      ensures ok ==> navigationLeft == Max(0, NAVIGATION_CLICK_LIMIT - Clicks(PageTail(log)))
      ensures ok ==> runLeft == Max(0, RUN_CLICK_LIMIT - Clicks(RunTail(log)))
    {
      hide Admissions, Budgets, Advances, RunTail, PageTail, Clicks, Prepared, Moved, Acceptable;
      StepsAdvance(ClickBudget(), log, identity, instance, reported, state, target);
      PrepareClickScope(identity);
      ok := AcceptEngineState(instance, reported);
      if ok {
        navigationCount, runCount := navigationCount + 1, runCount + 1;
        pageState, category := state, target;
      }
      navigationLeft, runLeft := Max(0, NAVIGATION_CLICK_LIMIT - navigationCount), Max(0, RUN_CLICK_LIMIT - runCount);
      Log(old(Requests()), old(ClickBudget()), if ok then Blocked else Refused);
      BudgetsCount(ClickBudget(), log);
    }

    method ResetClickNavigationBaseline(identity: Identity)
      requires Valid()
      modifies this
      ensures Valid() && View() == Resetting(old(View()), identity)
      ensures ClickBudget() == Rebased(Prepared(old(ClickBudget()), identity))
      ensures log == old(log) + [Entry(Reset, seenScope, ClickBudget().Page())]
    {
      hide Admissions, Budgets, Advances;
      StepsAdvance(ClickBudget(), log, identity, 0, 0, 0, 0);
      PrepareClickScope(identity);
      engine, generation, navigationCount := 0, 0, 0;
      Log(old(Requests()), old(ClickBudget()), Reset);
    }

    // ---------- One connection ----------

    /** Neither click budget is overdrawn. */
    ghost predicate Within()
      reads this
    {
      navigationCount <= NAVIGATION_CLICK_LIMIT && runCount <= RUN_CLICK_LIMIT
    }

    /** Handles one action from reservation to response, as the server does it for
        one connection at a time: then no budget is overdrawn. */
    method HandleAction(identity: Identity, id: nat, kind: ActionKind, outcome: EngineOutcome) returns (verdict: Verdict)
      requires Valid() && Within() && outcome.Valid()
      modifies this
      ensures Valid() && Within() && (View(), verdict) == Handling(old(View()), identity, id, kind, outcome)
    {
      hide Admissions, Budgets, Reserving, Answering;
      verdict := ReserveRequest(identity, id, kind);
      if verdict == Accepted {
        AfterEngine(identity, kind, outcome);
      }
    }

    method AfterEngine(identity: Identity, kind: ActionKind, outcome: EngineOutcome)
      requires Valid() && Within() && outcome.Valid()
      requires kind.Click? ==> !Prepared(ClickBudget(), identity).Exhausted()
      modifies this
      ensures Valid() && Within() && View() == Answering(old(View()), identity, kind, outcome)
    {
      hide Admissions, Budgets;
      match outcome {
        case Observed(instance, reported, state) =>
          if !kind.CloseAction? {
            var ok := RecordEngineObservation(identity, instance, reported, state);
            if ok && kind.Checkpoint? {
              ResetClickNavigationBaseline(identity);
            }
          }
        case BlockedClick(instance, reported, state, target) =>
          if kind.Click? {
            var _, _, _ := RecordBlockedClick(identity, instance, reported, state, target);
          }
        case ProcessReset => ResetClickNavigationBaseline(identity);
        case Challenge(fenced) =>
          if fenced {
            EndAttachment();
          }
        case OtherFailure =>
      }
    }
  }

  /** What the engine answers. A challenge is fenced if nobody can take over and
      the lease could be revoked. */
  datatype EngineOutcome = Observed(engine: nat, generation: nat, pageState: nat)
                         | BlockedClick(engine: nat, generation: nat, pageState: nat, category: nat)
                         | ProcessReset | Challenge(fenced: bool) | OtherFailure
  {
    /** Ensured by validating observations and failures first. */
    predicate Valid() {
      (Observed? ==> pageState != 0) && (BlockedClick? ==> pageState != 0 && category != 0)
    }
  }

  /** The event of a request that is charged. */
  function Asked(id: nat, kind: ActionKind): What {
    match kind
    case CloseAction => Close(id)
    case Batch(size) => Action(id, size)
    case _ => Action(id, 1)
  }

  // ---------- Admission, told from the connections ----------

  /** How many actions a request carries, as far as the limit is concerned. */
  function Carries(kind: ActionKind): nat {
    match kind
    case Single => 1
    case Batch(size) => size
    case Click => 1
    case Checkpoint => 1
    case CloseAction => 0
  }

  /** The request was charged; an exhausted click is charged before it is refused. */
  predicate WasCharged(verdict: Verdict) { verdict == Accepted || verdict.ClickExhausted? }

  function Attachments(cs: seq<Connection>): seq<Scope> { seq(|cs|, i requires 0 <= i < |cs| => cs[i].identity.Scope()) }

  /** The first connection of the last attachment. */
  function Arrival(cs: seq<Connection>): (from: nat)
    ensures from <= |cs|
  {
    Start(Attachments(cs))
  }

  /** The charged identifiers among the connections from `from` on. */
  function UsedIds(cs: seq<Connection>, vs: seq<Verdict>, from: nat): set<nat>
    requires |vs| == |cs|
  {
    set i | from <= i < |cs| && WasCharged(vs[i]) :: cs[i].id
  }

  /** The actions of all requests charged among them. */
  function SpentActions(cs: seq<Connection>, vs: seq<Verdict>, from: nat): nat
    requires |vs| == |cs|
  {
    if |cs| <= from then 0
    else
      var n := |cs| - 1;
      SpentActions(cs[..n], vs[..n], from) +
      if cs[n].ActionConnection? && WasCharged(vs[n]) then Carries(cs[n].kind) else 0
  }

  function MadeCloses(cs: seq<Connection>, vs: seq<Verdict>, from: nat): nat
    requires |vs| == |cs|
  {
    if |cs| <= from then 0
    else
      var n := |cs| - 1;
      MadeCloses(cs[..n], vs[..n], from) +
      if cs[n].ActionConnection? && cs[n].kind.CloseAction? && WasCharged(vs[n]) then 1 else 0
  }

  function MadeViewers(cs: seq<Connection>, vs: seq<Verdict>, from: nat): nat
    requires |vs| == |cs|
  {
    if |cs| <= from then 0
    else
      var n := |cs| - 1;
      MadeViewers(cs[..n], vs[..n], from) + if cs[n].ViewerConnection? && WasCharged(vs[n]) then 1 else 0
  }

  /** The third close, or a challenge that nobody can take over, ends an attachment. */
  predicate HasEnded(cs: seq<Connection>, vs: seq<Verdict>, from: nat)
    requires |vs| == |cs|
  {
    || MadeCloses(cs, vs, from) >= 3
    || exists i :: from <= i < |cs| && vs[i] == Accepted && cs[i].ActionConnection? && cs[i].outcome == Challenge(true)
  }

  /** The verdicts that the server gives. */
  function Verdicts(limit: nat, cs: seq<Connection>): (vs: seq<Verdict>)
    ensures |vs| == |cs|
  {
    if cs == [] then []
    else
      var n := |cs| - 1;
      Verdicts(limit, cs[..n]) + [After(Reached(limit, cs[..n]), cs[n]).1]
  }

  /** What is kept of an attachment is what its connections and their verdicts tell. */
  ghost predicate KeptIsTold(a: Admission, cs: seq<Connection>, vs: seq<Verdict>, from: nat)
    requires |vs| == |cs|
  {
    && a.seen == UsedIds(cs, vs, from) && a.actions == SpentActions(cs, vs, from)
    && a.closes == MadeCloses(cs, vs, from) && a.viewers == MadeViewers(cs, vs, from)
    && (a.terminal <==> HasEnded(cs, vs, from))
  }

  lemma ToldOneMore(cs: seq<Connection>, vs: seq<Verdict>, from: nat, c: Connection, v: Verdict)
    requires |vs| == |cs| && from <= |cs|
    ensures UsedIds(cs + [c], vs + [v], from) == UsedIds(cs, vs, from) + if WasCharged(v) then {c.id} else {}
    ensures SpentActions(cs + [c], vs + [v], from) ==
              SpentActions(cs, vs, from) + if c.ActionConnection? && WasCharged(v) then Carries(c.kind) else 0
    ensures MadeCloses(cs + [c], vs + [v], from) ==
              MadeCloses(cs, vs, from) + if c.ActionConnection? && c.kind.CloseAction? && WasCharged(v) then 1 else 0
    ensures MadeViewers(cs + [c], vs + [v], from) ==
              MadeViewers(cs, vs, from) + if c.ViewerConnection? && WasCharged(v) then 1 else 0
    ensures HasEnded(cs + [c], vs + [v], from) <==>
              || HasEnded(cs, vs, from) || MadeCloses(cs + [c], vs + [v], from) >= 3
              || (v == Accepted && c.ActionConnection? && c.outcome == Challenge(true))
  {
    var ds, ws := cs + [c], vs + [v];
    assert ds[..|cs|] == cs && ws[..|cs|] == vs;
    forall id
      ensures id in UsedIds(ds, ws, from) <==> id in UsedIds(cs, vs, from) + if WasCharged(v) then {c.id} else {}
    {
      if id in UsedIds(cs, vs, from) {
        var i :| from <= i < |cs| && WasCharged(vs[i]) && cs[i].id == id;
        assert ds[i].id == id && WasCharged(ws[i]);
      }
      if WasCharged(v) && id == c.id {
        assert ds[|cs|].id == id && WasCharged(ws[|cs|]);
      }
    }
    if exists i :: from <= i < |cs| && vs[i] == Accepted && cs[i].ActionConnection? && cs[i].outcome == Challenge(true) {
      var i :| from <= i < |cs| && vs[i] == Accepted && cs[i].ActionConnection? && cs[i].outcome == Challenge(true);
      assert ws[i] == Accepted && ds[i].outcome == Challenge(true);
    }
    if v == Accepted && c.ActionConnection? && c.outcome == Challenge(true) {
      assert ws[|cs|] == Accepted && ds[|cs|].outcome == Challenge(true);
    }
  }

  /** One connection in its attachment: the verdict, and what is kept then. */
  lemma ConnectionTold(s: State, cs: seq<Connection>, vs: seq<Verdict>, from: nat, c: Connection)
    requires |vs| == |cs| && from <= |cs| && KeptIsTold(Entered(s.requests, c.identity.Scope()), cs, vs, from)
    ensures var (t, v) := After(s, c);
            && t.limit == s.limit && t.requests.scope == Some(c.identity.Scope())
            && KeptIsTold(t.requests, cs + [c], vs + [v], from) && Decided(s.limit, cs, vs, from, c, v)
  {
    hide UsedIds, SpentActions, MadeCloses, MadeViewers, HasEnded, Moved, Counted, Acceptable, Prepared, Rebased;
    var (t, v) := After(s, c);
    ToldOneMore(cs, vs, from, c, v);
    ClosesEnd(cs, vs, from);
    if c.ActionConnection? {
      AnswerKeepsRequests(Reserving(s, c.identity, c.id, c.kind).0, c.identity, c.kind, c.outcome);
    }
  }

  lemma ClosesEnd(cs: seq<Connection>, vs: seq<Verdict>, from: nat)
    requires |vs| == |cs|
    ensures MadeCloses(cs, vs, from) >= 3 ==> HasEnded(cs, vs, from)
  {
  }

  lemma AnswerKeepsRequests(s: State, identity: Identity, kind: ActionKind, outcome: EngineOutcome)
    ensures Answering(s, identity, kind, outcome).limit == s.limit
    ensures Answering(s, identity, kind, outcome).requests ==
              if outcome == Challenge(true) then s.requests.(terminal := true) else s.requests
  {
  }

  /** Which verdict the earlier connections of the attachment demand. An action that is
      neither a repetition nor after the end is refused exactly if it carries more than
      is left of the limit. */
  predicate Decided(limit: nat, cs: seq<Connection>, vs: seq<Verdict>, from: nat, c: Connection, v: Verdict)
    requires |vs| == |cs|
  {
    if c.id in UsedIds(cs, vs, from) then v == Replayed
    else
      match c
      case ViewerConnection(_, _) => v == if MadeViewers(cs, vs, from) < 8192 then Accepted else LimitExceeded
      case ActionConnection(_, _, kind, _) =>
        if kind.CloseAction? then v == if MadeCloses(cs, vs, from) < 3 then Accepted else CloseExhausted
        else if HasEnded(cs, vs, from) then v == CloseExhausted
        else if SpentActions(cs, vs, from) + Carries(kind) > limit then v == LimitExceeded
        else v == Accepted || (kind.Click? && v.ClickExhausted?)
  }

  lemma ArrivalAfter(cs: seq<Connection>, c: Connection)
    ensures Arrival(cs + [c]) ==
              if cs == [] || c.identity.Scope() == cs[|cs| - 1].identity.Scope() then Arrival(cs) else |cs|
  {
    assert Attachments(cs + [c]) == Attachments(cs) + [c.identity.Scope()];
    StartAfter(Attachments(cs), c.identity.Scope());
  }

  lemma NothingTold(cs: seq<Connection>, vs: seq<Verdict>, scope: Scope)
    requires |vs| == |cs|
    ensures KeptIsTold(Admission(Some(scope), {}, 0, 0, 0, false), cs, vs, |cs|)
  {
  }

  /** Over any connections: what the server keeps is what the connections since the
      attachment changed tell, and the actions charged never exceed the limit. */
  lemma {:induction false} AdmissionIsTold(limit: nat, cs: seq<Connection>)
    ensures var s, vs := Reached(limit, cs), Verdicts(limit, cs);
            && s.limit == limit
            && s.requests.scope == (if cs == [] then None else Some(cs[|cs| - 1].identity.Scope()))
            && KeptIsTold(s.requests, cs, vs, Arrival(cs)) && SpentActions(cs, vs, Arrival(cs)) <= limit
  {
    hide After, KeptIsTold, Decided;
    if cs == [] {
      NoneTold(limit);
    } else {
      var n := |cs| - 1;
      AdmissionIsTold(limit, cs[..n]);
      VerdictIsDecided(limit, cs[..n], cs[n]);
      assert cs[..n] + [cs[n]] == cs;
    }
  }

  lemma NoneTold(limit: nat)
    ensures KeptIsTold(Reached(limit, []).requests, [], [], 0)
  {
  }

  lemma SpentWithin(limit: nat, cs: seq<Connection>, vs: seq<Verdict>, from: nat, c: Connection, v: Verdict)
    requires |vs| == |cs| && from <= |cs| && SpentActions(cs, vs, from) <= limit && Decided(limit, cs, vs, from, c, v)
    ensures SpentActions(cs + [c], vs + [v], from) <= limit
  {
    hide UsedIds, HasEnded;
    ToldOneMore(cs, vs, from, c, v);
  }

  /** Given that for the connections so far, the next one is decided by them. */
  lemma VerdictIsDecided(limit: nat, cs: seq<Connection>, c: Connection)
    requires var s, vs := Reached(limit, cs), Verdicts(limit, cs);
             && s.limit == limit
             && s.requests.scope == (if cs == [] then None else Some(cs[|cs| - 1].identity.Scope()))
             && KeptIsTold(s.requests, cs, vs, Arrival(cs)) && SpentActions(cs, vs, Arrival(cs)) <= limit
    ensures var ds, vs, v := cs + [c], Verdicts(limit, cs), After(Reached(limit, cs), c).1;
            && Reached(limit, ds) == After(Reached(limit, cs), c).0 && Verdicts(limit, ds) == vs + [v]
            && Reached(limit, ds).limit == limit && Reached(limit, ds).requests.scope == Some(c.identity.Scope())
            && KeptIsTold(Reached(limit, ds).requests, ds, vs + [v], Arrival(ds)) && SpentActions(ds, vs + [v], Arrival(ds)) <= limit
            && Decided(limit, cs, vs, Arrival(ds), c, v)
  {
    hide After, KeptIsTold, Decided, Arrival, SpentActions;
    var ds, vs, s := cs + [c], Verdicts(limit, cs), Reached(limit, cs);
    assert ds[..|cs|] == cs;
    ArrivalAfter(cs, c);
    NothingTold(cs, vs, c.identity.Scope());
    NothingSpent(cs, vs);
    EmptyArrival(cs);
    ConnectionTold(s, cs, vs, Arrival(ds), c);
    SpentWithin(limit, cs, vs, Arrival(ds), c, After(s, c).1);
  }

  lemma NothingSpent(cs: seq<Connection>, vs: seq<Verdict>)
    requires |vs| == |cs|
    ensures SpentActions(cs, vs, |cs|) == 0
  {
  }

  lemma EmptyArrival(cs: seq<Connection>)
    ensures cs == [] ==> Arrival(cs) == 0
  {
  }

  /** Over any connections, each verdict is decided by the connections before it. */
  lemma EveryVerdictIsDecided(limit: nat, cs: seq<Connection>, i: nat)
    requires i < |cs|
    ensures Decided(limit, cs[..i], Verdicts(limit, cs)[..i], Arrival(cs[..i + 1]), cs[i], Verdicts(limit, cs)[i])
  {
    hide After, Decided, KeptIsTold, Arrival, SpentActions;
    VerdictsExtend(limit, cs, i);
    VerdictsExtend(limit, cs, i + 1);
    AdmissionIsTold(limit, cs[..i]);
    VerdictIsDecided(limit, cs[..i], cs[i]);
    assert cs[..i] + [cs[i]] == cs[..i + 1] && cs[..i + 1][..i] == cs[..i];
  }

  lemma {:induction false} VerdictsExtend(limit: nat, cs: seq<Connection>, i: nat)
    requires i <= |cs|
    ensures Verdicts(limit, cs[..i]) == Verdicts(limit, cs)[..i]
  {
    hide After;
    if i == |cs| {
      assert cs[..i] == cs;
    } else {
      assert cs[..|cs| - 1][..i] == cs[..i];
      VerdictsExtend(limit, cs[..|cs| - 1], i);
    }
  }

  // ---------- Blocked clicks, told from a connection ----------

  /** What was known of clicks and page when an action of this Run and Session came:
      nothing of another Run, and of another Session no page. */
  datatype Known = Known(clicks: nat, pageClicks: nat, engine: nat, generation: nat, pageState: nat, category: nat)

  function KnownOf(b: Budget, identity: Identity): Known {
    if b.run != Some(identity.run) then Known(0, 0, 0, 0, 0, 0)
    else if b.place != Some(RequestHistory.Place(identity.session, identity.sessionEpoch))
    then Known(b.clicks, 0, 0, 0, b.pageState, b.category)
    else Known(b.clicks, b.pageClicks, b.engine, b.generation, b.pageState, b.category)
  }

  /** The accepted action has had a report of the page that is not older than what was
      known of the same engine. */
  predicate Reports(k: Known, c: Connection, v: Verdict) {
    && c.ActionConnection? && v == Accepted
    && ((c.outcome.Observed? && !c.kind.CloseAction?) || (c.outcome.BlockedClick? && c.kind.Click?))
    && c.outcome.generation != 0
    && (k.engine == (if c.outcome.engine == 0 then 1 else c.outcome.engine) ==> k.generation <= c.outcome.generation)
  }

  /** What is known after the report: a new page starts without clicks. */
  function Learned(k: Known, outcome: EngineOutcome): Known
    requires outcome.Observed? || outcome.BlockedClick?
  {
    var engine := if outcome.engine == 0 then 1 else outcome.engine;
    var same := k.engine == engine && k.generation == outcome.generation;
    var blocked := if outcome.BlockedClick? then 1 else 0;
    Known(k.clicks + blocked, (if same then k.pageClicks else 0) + blocked, engine, outcome.generation, outcome.pageState,
          if outcome.BlockedClick? then outcome.category else k.category)
  }

  /** A checkpoint that has been observed, and a reset of the process, forget the page. */
  predicate Forgets(k: Known, c: Connection, v: Verdict) {
    && c.ActionConnection? && v == Accepted
    && (c.outcome.ProcessReset? || (c.outcome.Observed? && c.kind.Checkpoint? && Reports(k, c, v)))
  }

  /** One connection: a charged click is refused exactly if three clicks have been
      blocked on its page or twelve in its Run, with what is known as evidence; and
      only a report or a reset changes what is known. A Viewer changes nothing. */
  lemma ClicksTold(s: State, c: Connection)
    ensures var (t, v) := After(s, c);
            if c.ViewerConnection? then t.budget == s.budget && !v.ClickExhausted?
            else
              var k := KnownOf(s.budget, c.identity);
              var l := if Reports(k, c, v) then Learned(k, c.outcome) else k;
              && (WasCharged(v) ==> (v.ClickExhausted? <==> c.kind.Click? && (k.pageClicks >= 3 || k.clicks >= 12)))
              && (v.ClickExhausted? ==>
                    v.failure == ClickFailure(k.category, k.pageState, k.generation, Max(0, 3 - k.pageClicks), Max(0, 12 - k.clicks)))
              && t.budget.run == Some(c.identity.run)
              && t.budget.place == Some(RequestHistory.Place(c.identity.session, c.identity.sessionEpoch))
              && KnownOf(t.budget, c.identity) ==
                   if Forgets(k, c, v) then l.(pageClicks := 0, engine := 0, generation := 0) else l
  {
    hide Chargeable, Charged, Entered, Refusal;
    if c.ActionConnection? {
      NeverExhausted(Entered(s.requests, c.identity.Scope()), c.id, c.kind);
    }
  }

  lemma NeverExhausted(a: Admission, id: nat, kind: ActionKind)
    ensures !Refusal(a, id, kind).ClickExhausted? && Refusal(a, id, kind) != Accepted
  {
  }

  // ---------- Whole runs ----------

  /** The server's loop, one connection after the other: each is answered as the ones
      before it demand, the counters stay what the history says, admission keeps its
      promises, no click budget is overdrawn, and the generation that is known goes
      back only over a reset or a change of Run, place or engine. */
  method Serve(connections: seq<Connection>, limit: nat) returns (server: Server, verdicts: seq<Verdict>)
    requires forall c :: c in connections && c.ActionConnection? ==> c.outcome.Valid()
    ensures fresh(server) && server.Valid() && server.Within() && server.View() == Reached(limit, connections)
    ensures |verdicts| == |connections|
    ensures forall i :: 0 <= i < |connections| ==> verdicts[i] == After(Reached(limit, connections[..i]), connections[i]).1
    ensures verdicts == Verdicts(limit, connections)
    ensures forall i :: 0 <= i < |connections| ==>
              Decided(limit, connections[..i], verdicts[..i], Arrival(connections[..i + 1]), connections[i], verdicts[i])
    ensures server.actionCount == SpentActions(connections, verdicts, Arrival(connections)) <= limit
    ensures Admitted(ScopeTail(Reached(limit, connections).log), limit)
    ensures forall i :: Forward(Reached(limit, connections).log, i)
    ensures var s := Reached(limit, connections);
            s.budget.pageClicks == Clicks(PageTail(s.log)) <= s.budget.clicks == Clicks(RunTail(s.log))
  {
    hide Admissions, Budgets, After, Admitted, Forward, PageTail, RunTail, Clicks, ScopeTail, Decided, SpentActions, Arrival;
    server := new Server(limit);
    verdicts := [];
    var i := 0;
    while i < |connections|
      invariant 0 <= i == |verdicts| <= |connections| && fresh(server) && server.Valid() && server.Within()
      invariant server.View() == Reached(limit, connections[..i])
      invariant forall j :: 0 <= j < i ==> verdicts[j] == After(Reached(limit, connections[..j]), connections[j]).1
    {
      assert connections[..i + 1][..i] == connections[..i];
      var verdict := Connect(server, connections[i]);
      verdicts, i := verdicts + [verdict], i + 1;
    }
    assert connections[..|connections|] == connections;
    HistoryTells(server);
    VerdictsAre(limit, connections, verdicts);
    ActionsTold(limit, connections);
    forall i | 0 <= i < |connections|
      ensures Decided(limit, connections[..i], verdicts[..i], Arrival(connections[..i + 1]), connections[i], verdicts[i])
    {
      EveryVerdictIsDecided(limit, connections, i);
    }
    assert server.ClickBudget() == Reached(limit, connections).budget && server.log == Reached(limit, connections).log;
  }

  lemma ActionsTold(limit: nat, cs: seq<Connection>)
    ensures Reached(limit, cs).requests.actions == SpentActions(cs, Verdicts(limit, cs), Arrival(cs)) <= limit
  {
    hide After, SpentActions, Arrival;
    AdmissionIsTold(limit, cs);
  }

  lemma {:induction false} VerdictsAre(limit: nat, cs: seq<Connection>, vs: seq<Verdict>)
    requires |vs| == |cs| && forall i :: 0 <= i < |cs| ==> vs[i] == After(Reached(limit, cs[..i]), cs[i]).1
    ensures vs == Verdicts(limit, cs)
  {
    hide After, Reached;
    if cs != [] {
      var n := |cs| - 1;
      assert forall i :: 0 <= i < n ==> cs[..n][..i] == cs[..i];
      VerdictsAre(limit, cs[..n], vs[..n]);
      assert vs == vs[..n] + [vs[n]];
    }
  }

  method Connect(server: Server, c: Connection) returns (verdict: Verdict)
    requires server.Valid() && server.Within() && (c.ActionConnection? ==> c.outcome.Valid())
    modifies server
    ensures server.Valid() && server.Within() && (server.View(), verdict) == After(old(server.View()), c)
  {
    hide Admissions, Budgets, Handling, ReservingViewer;
    match c {
      case ActionConnection(identity, id, kind, outcome) => verdict := server.HandleAction(identity, id, kind, outcome);
      case ViewerConnection(identity, id) => verdict := server.ReserveViewerRequest(identity, id);
    }
  }

  lemma HistoryTells(server: Server)
    requires server.Valid()
    ensures Admitted(ScopeTail(server.log), server.limit) && forall i :: Forward(server.log, i)
    ensures server.navigationCount == Clicks(PageTail(server.log)) <= server.runCount == Clicks(RunTail(server.log))
  {
    ExhaustedHasClicks(server.ClickBudget(), server.log);
  }

  // ---------- Runs that can happen ----------

  /** The attachment is known, identifiers from `base` on are new, and the clicks are
      those of one page of the first engine. */
  ghost predicate Ready(s: State, identity: Identity, base: nat, generation: nat, pageClicks: nat, clicks: nat) {
    && s.requests.scope == Some(identity.Scope()) && (forall id :: id in s.requests.seen ==> id < base)
    && !s.requests.terminal && s.requests.actions <= base
    && s.budget.run == Some(identity.run) && s.budget.place == Some(identity.Place())
    && s.budget.engine == 1 && s.budget.generation == generation && s.budget.pageClicks == pageClicks && s.budget.clicks == clicks
  }

  lemma ClickBlocked(s: State, identity: Identity, base: nat, generation: nat, page: nat, run: nat)
    requires Ready(s, identity, base, generation, page, run) && 0 < generation && base < s.limit
    requires page < NAVIGATION_CLICK_LIMIT && run < RUN_CLICK_LIMIT
    ensures var (t, verdict) := Handling(s, identity, base, Click, BlockedClick(1, generation, 1, 1));
            verdict == Accepted && Ready(t, identity, base + 1, generation, page + 1, run + 1)
  {
  }

  lemma PageObserved(s: State, identity: Identity, base: nat, before: nat, generation: nat, page: nat, run: nat)
    requires Ready(s, identity, base, before, page, run) && before < generation && base < s.limit
    ensures var (t, verdict) := Handling(s, identity, base, Single, Observed(1, generation, 1));
            verdict == Accepted && Ready(t, identity, base + 1, generation, 0, run)
  {
  }

  /** A new page, and three clicks blocked on it. */
  method SpendPage(server: Server, identity: Identity, base: nat, generation: nat, ghost page: nat, run: nat)
    requires server.Valid() && server.Within() && base + 4 <= server.limit && run + 3 <= RUN_CLICK_LIMIT
    requires Ready(server.View(), identity, base, generation, page, run)
    modifies server
    ensures server.Valid() && server.Within() && Ready(server.View(), identity, base + 4, generation + 1, 3, run + 3)
  {
    hide Admissions, Budgets, Handling, Ready;
    PageObserved(server.View(), identity, base, generation, generation + 1, page, run);
    var _ := server.HandleAction(identity, base, Single, Observed(1, generation + 1, 1));
    var i := 0;
    while i < 3
      invariant 0 <= i <= 3 && server.Valid() && server.Within()
      invariant Ready(server.View(), identity, base + 1 + i, generation + 1, i, run + i)
    {
      ClickBlocked(server.View(), identity, base + 1 + i, generation + 1, i, run + i);
      var _ := server.HandleAction(identity, base + 1 + i, Click, BlockedClick(1, generation + 1, 1, 1));
      i := i + 1;
    }
  }

  lemma FirstPage(s: State, identity: Identity, generation: nat)
    requires s == State(s.limit, Admission(None, {}, 0, 0, 0, false), NO_CLICKS, []) && 0 < s.limit && 0 < generation
    ensures var (t, verdict) := Handling(s, identity, 0, Single, Observed(1, generation, 1));
            && verdict == Accepted && Ready(t, identity, 1, generation, 0, 0)
            && |t.log| == 2 && t.log[1] == Entry(Reported, Some(identity.Scope()), t.budget.Page())
  {
  }

  /** Once the Run's clicks are spent and the process is reset, the next click's failure
      does not validate: there is no generation to report. */
  lemma ClickAfterReset(s: State, identity: Identity, base: nat, generation: nat, page: nat)
    requires Ready(s, identity, base, generation, page, RUN_CLICK_LIMIT) && base + 2 <= s.limit
    ensures var t := Handling(s, identity, base, Single, ProcessReset).0;
            var verdict := Handling(t, identity, base + 1, Click, OtherFailure).1;
            verdict.ClickExhausted? && !verdict.failure.Validates()
  {
  }

  method ExhaustedClickFailsValidation(identity: Identity) returns (server: Server, verdict: Verdict)
    ensures fresh(server) && server.Valid() && verdict.ClickExhausted? && !verdict.failure.Validates()
  {
    hide Admissions, Budgets, Handling, Ready;
    server := new Server(20);
    FirstPage(server.View(), identity, 1);
    verdict := server.HandleAction(identity, 0, Single, Observed(1, 1, 1));
    SpendPage(server, identity, 1, 1, 0, 0);
    SpendPage(server, identity, 5, 2, 3, 3);
    SpendPage(server, identity, 9, 3, 3, 6);
    SpendPage(server, identity, 13, 4, 3, 9);
    ClickAfterReset(server.View(), identity, 17, 5, 3);
    verdict := server.HandleAction(identity, 17, Single, ProcessReset);
    verdict := server.HandleAction(identity, 18, Click, OtherFailure);
  }

  /** After a reset an older generation of the same engine is accepted. */
  lemma OlderAfterReset(s: State, identity: Identity, base: nat, generation: nat, older: nat)
    requires Ready(s, identity, base, generation, 0, 0) && base + 2 <= s.limit && 0 < older < generation
    ensures var t := Handling(s, identity, base, Single, ProcessReset).0;
            var u := Handling(t, identity, base + 1, Single, Observed(1, older, 1)).0;
            && |u.log| == |s.log| + 4 && u.log[..|s.log|] == s.log
            && u.log[|s.log| + 3] == Entry(Reported, Some(identity.Scope()), s.budget.Page().(generation := older))
  {
  }

  method ResetForgetsGeneration(identity: Identity) returns (server: Server)
    ensures fresh(server) && server.Valid() && |server.log| == 6
    ensures server.log[1].what == Reported && server.log[5].what == Reported
    ensures SamePlace(server.log[1].page, server.log[5].page) && server.log[5].page.generation < server.log[1].page.generation
  {
    hide Admissions, Budgets, Handling;
    server := new Server(3);
    FirstPage(server.View(), identity, 5);
    var _ := server.HandleAction(identity, 0, Single, Observed(1, 5, 1));
    ghost var before := server.log;
    OlderAfterReset(server.View(), identity, 1, 5, 3);
    var _ := server.HandleAction(identity, 1, Single, ProcessReset);
    var _ := server.HandleAction(identity, 2, Single, Observed(1, 3, 1));
    assert server.log[1] == server.log[..|before|][1];
  }

  /** Two clicks in flight at once could overdraw the budget of a page: both are
      admitted when one attempt is left. */
  lemma TwoAdmitted(s: State, identity: Identity, base: nat, generation: nat)
    requires Ready(s, identity, base, generation, 2, 2) && base + 2 <= s.limit && 0 < generation
    ensures var (t, first) := Reserving(s, identity, base, Click);
            var (u, second) := Reserving(t, identity, base + 1, Click);
            && first == Accepted && second == Accepted
            && CountingClick(CountingClick(u, identity, 1, generation, 1, 1), identity, 1, generation, 1, 1).budget.pageClicks
                 == NAVIGATION_CLICK_LIMIT + 1
  {
  }

  method OverlappingClicksOverdraw(identity: Identity) returns (server: Server)
    ensures fresh(server) && server.Valid() && server.navigationCount == NAVIGATION_CLICK_LIMIT + 1
  {
    hide Admissions, Budgets, Handling, Ready, Reserving, CountingClick;
    server := new Server(10);
    FirstPage(server.View(), identity, 1);
    var _ := server.HandleAction(identity, 0, Single, Observed(1, 1, 1));
    ClickBlocked(server.View(), identity, 1, 1, 0, 0);
    var _ := server.HandleAction(identity, 1, Click, BlockedClick(1, 1, 1, 1));
    ClickBlocked(server.View(), identity, 2, 1, 1, 1);
    var _ := server.HandleAction(identity, 2, Click, BlockedClick(1, 1, 1, 1));
    TwoAdmitted(server.View(), identity, 3, 1);
    var third := server.ReserveRequest(identity, 3, Click);
    var fourth := server.ReserveRequest(identity, 4, Click);
    var _, _, _ := server.RecordBlockedClick(identity, 1, 1, 1, 1);
    var _, _, _ := server.RecordBlockedClick(identity, 1, 1, 1, 1);
  }
}

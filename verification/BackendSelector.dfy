/** Choosing the Browser backend of a Session by preflight, with fallback, for every
    pattern of backend failures. */
module BackendSelector {
  import opened Basics

  datatype Backend = OfficialChrome | IsolatedChromium

  /** The mode a request asks for; `OfficialAlias` is the native mode's other name. */
  datatype Mode = Auto | Native | OfficialAlias | Isolated | Unknown

  datatype Reason = AssetsUnavailable | AssetsInvalid | PlatformUnsupported | SandboxUnavailable | StartFailed
                  | ExtensionUnavailable | NativeHostUnavailable | ProtocolMismatch | CapabilityIncomplete
                  | ProfilePreflightFailed | PolicyUnavailable | EgressPreflightFailed | UnknownReason

  datatype Code = EgressUnavailable | ProfileLocked | ProfileCorrupt | EnvironmentMismatch | EngineDowngrade
                | EngineUpgrade | ProtocolInvalid | OutputInvalid | RuntimeUnavailable | EngineUnavailable
                | IdentityMismatch | OtherCode

  /** `assets` stands for valid manifest, extension and host fields, all present. */
  datatype Evidence = Evidence(mode: Mode, backend: Backend, reason: Option<Reason>, assets: bool,
                               generation: nat, recovered: bool)
  {
    predicate Validates() {
      && mode != Unknown
      && (mode == Native || mode == OfficialAlias ==> backend == OfficialChrome)
      && (mode == Isolated ==> backend == IsolatedChromium)
      && (reason.Some? ==> mode == Auto && backend == IsolatedChromium && reason.value != UnknownReason)
      && (backend == IsolatedChromium ==> !assets && generation == 0 && !recovered)
      && (backend == OfficialChrome ==> assets && generation != 0)
    }
  }

  datatype Identity = Identity(run: nat, agent: nat, principal: nat, session: nat, sessionEpoch: nat, attachment: nat)
  {
    predicate SameGeneration(other: Identity) {
      agent == other.agent && principal == other.principal && session == other.session && sessionEpoch == other.sessionEpoch
    }

    predicate Matches(other: Identity) { SameGeneration(other) && attachment == other.attachment }
  }

  datatype Action = Action(preflight: bool, mode: Option<Mode>)

  datatype Answer = Observed(evidence: Option<Evidence>) | Failure(code: Code)

  /** What the backends answer during one request: each one's execution, the abort
      of a previous backend and of a startup, and the Profile evidence. */
  datatype Luck = Luck(official: Option<Code>, isolated: Option<Code>, previousAbort: bool, startupAbort: bool,
                       profile: Option<(nat, bool)>)

  /** The calls that reach a backend, in order. */
  datatype Call = Executed(backend: Backend, preflight: bool, selected: Option<Backend>, mode: Option<Mode>, ok: bool)
                | Aborted(backend: Backend, ok: bool)

  function Canonical(mode: Mode): Option<Mode> {
    match mode
    case Native => Some(Native)
    case OfficialAlias => Some(Native)
    case Unknown => None
    case _ => Some(mode)
  }

  predicate Equivalent(left: Mode, right: Mode) {
    Canonical(left).Some? && Canonical(left) == Canonical(right)
  }

  /** How the official backend classifies a failed startup. */
  function FallbackReason(code: Code): Reason {
    match code
    case EgressUnavailable => EgressPreflightFailed
    case ProfileLocked => ProfilePreflightFailed
    case ProfileCorrupt => ProfilePreflightFailed
    case EnvironmentMismatch => ProfilePreflightFailed
    case EngineDowngrade => ProfilePreflightFailed
    case EngineUpgrade => ProfilePreflightFailed
    case ProtocolInvalid => ProtocolMismatch
    case OutputInvalid => ProtocolMismatch
    case _ => StartFailed
  }

  /** A backend may serve a mode. */
  predicate Serves(backend: Backend, mode: Mode) {
    match mode
    case Auto => true
    case Native => backend == OfficialChrome
    case OfficialAlias => backend == OfficialChrome
    case Isolated => backend == IsolatedChromium
    case Unknown => false
  }

  lemma EquivalentModesServeAlike(left: Mode, right: Mode, backend: Backend)
    requires Equivalent(left, right)
    ensures Serves(backend, left) <==> Serves(backend, right)
  {
  }

  datatype Options = Options(official: Option<Evidence>, unavailable: Option<Reason>)

  /** What the constructor accepts. */
  predicate Acceptable(options: Options) {
    && !(options.official.Some? && options.unavailable.Some?)
    && (options.official.Some? ==> NativeEvidence(options.official.value).Validates())
    && (options.unavailable.Some? ==>
          Evidence(Auto, IsolatedChromium, options.unavailable, false, 0, false).Validates())
  }

  function NativeEvidence(evidence: Evidence): Evidence {
    evidence.(mode := Native, backend := OfficialChrome, reason := None)
  }

  // ---------- Histories of calls ----------

  /** No other action than a preflight reaches a backend that is not selected. */
  predicate Guarded(call: Call) {
    call.Executed? && !call.preflight ==> call.selected == Some(call.backend)
  }

  /** Automatic choice tries the isolated backend only right after the official one
      has failed to start and has been aborted. */
  predicate FallsBackClean(log: seq<Call>, i: nat) {
    i < |log| && log[i].Executed? && log[i].backend == IsolatedChromium && log[i].mode == Some(Auto) ==>
      && 2 <= i && log[i - 1] == Aborted(OfficialChrome, true)
      && log[i - 2] == Executed(OfficialChrome, true, None, Some(Auto), false)
  }

  ghost predicate Proper(log: seq<Call>, official: bool) {
    && (forall i :: 0 <= i < |log| ==> Guarded(log[i]))
    && (official ==> forall i :: FallsBackClean(log, i))
  }

  /** The backends that have been started and not successfully aborted since. */
  function Running(log: seq<Call>): set<Backend> {
    if log == [] then {} else RunningAfter(Running(log[..|log| - 1]), log[|log| - 1])
  }

  function RunningAfter(before: set<Backend>, call: Call): set<Backend> {
    match call
    case Executed(backend, preflight, _, _, _) => if preflight then before + {backend} else before
    case Aborted(backend, ok) => if ok then before - {backend} else before
  }

  /** The backends whose latest abort failed. */
  function Stuck(log: seq<Call>): set<Backend> {
    if log == [] then {} else StuckAfter(Stuck(log[..|log| - 1]), log[|log| - 1])
  }

  function StuckAfter(before: set<Backend>, call: Call): set<Backend> {
    match call
    case Executed(_, _, _, _, _) => before
    case Aborted(backend, ok) => if ok then before - {backend} else before + {backend}
  }

  lemma LogAfter(log: seq<Call>, call: Call, official: bool)
    requires Proper(log, official) && Guarded(call)
    requires official && call.Executed? && call.backend == IsolatedChromium && call.mode == Some(Auto) ==>
               FallsBackClean(log + [call], |log|)
    ensures Proper(log + [call], official)
    ensures Running(log + [call]) == RunningAfter(Running(log), call)
    ensures Stuck(log + [call]) == StuckAfter(Stuck(log), call)
  {
    assert (log + [call])[..|log|] == log;
    if official {
      forall i
        ensures FallsBackClean(log + [call], i)
      {
        assert FallsBackClean(log, i);
      }
    }
  }

  // ---------- What a request does ----------

  datatype State = State(options: Options, selected: Option<Backend>, evidence: Evidence, scope: Identity, closed: bool, log: seq<Call>)
  {
    function Ran(backend: Backend, preflight: bool, mode: Option<Mode>, luck: Luck): State {
      this.(log := log + [Executed(backend, preflight, selected, mode, Failing(backend, luck).None?)])
    }

    function AbortedOf(backend: Backend, ok: bool): State { this.(log := log + [Aborted(backend, ok)]) }

    function Cleared(): State { this.(selected := None, evidence := NO_EVIDENCE, scope := NO_IDENTITY) }

    function Chosen(backend: Backend, found: Evidence, identity: Identity): (State, Answer) {
      (this.(selected := Some(backend), evidence := found, scope := identity), Observed(Some(found)))
    }
  }

  const NO_EVIDENCE := Evidence(Auto, IsolatedChromium, None, false, 0, false)
  const NO_IDENTITY := Identity(0, 0, 0, 0, 0, 0)

  function Failing(backend: Backend, luck: Luck): Option<Code> {
    if backend == OfficialChrome then luck.official else luck.isolated
  }

  /** Completes official evidence with what the Profile reports. */
  function Bound(found: Evidence, profile: Option<(nat, bool)>): Option<Evidence> {
    if profile.None? || profile.value.0 == 0 || (found.generation != 0 && found.generation != profile.value.0) then None
    else
      var complete := found.(generation := profile.value.0, recovered := profile.value.1);
      if complete.Validates() then Some(complete) else None
  }

  function ExecutingRotated(s: State, identity: Identity, action: Action, luck: Luck): (State, Answer)
    requires s.selected.Some?
  {
    var backend := s.selected.value;
    var t := s.Ran(backend, action.preflight, None, luck);
    var failure := Failing(backend, luck);
    if failure.Some? then
      if !action.preflight then (t, Failure(failure.value))
      else
        var u := t.AbortedOf(backend, luck.startupAbort);
        if luck.startupAbort then (u.Cleared(), Failure(failure.value)) else (u, Failure(RuntimeUnavailable))
    else if !action.preflight then (t.(scope := identity), Observed(None))
    else if t.evidence.backend != OfficialChrome then (t.(scope := identity), Observed(Some(t.evidence)))
    else
      var bound := Bound(t.evidence, luck.profile);
      if bound.None? then (t.AbortedOf(backend, luck.startupAbort).Cleared(), Failure(OutputInvalid))
      else (t.(scope := identity, evidence := bound.value), Observed(bound))
  }

  function ExecutingSelected(s: State, action: Action, luck: Luck): (State, Answer)
    requires s.selected.Some?
  {
    var t := s.Ran(s.selected.value, action.preflight, None, luck);
    var failure := Failing(s.selected.value, luck);
    if failure.Some? then (t, Failure(failure.value))
    else if !action.preflight then (t, Observed(None))
    else if t.evidence.backend != OfficialChrome then (t, Observed(Some(t.evidence)))
    else
      var bound := Bound(t.evidence, luck.profile);
      if bound.None? then (t, Failure(OutputInvalid)) else (t.(evidence := bound.value), Observed(bound))
  }

  function SelectingBackend(s: State, identity: Identity, backend: Backend, found: Evidence, luck: Luck): (State, Answer) {
    var t := s.Ran(backend, true, Some(found.mode), luck);
    var complete := if backend == OfficialChrome then Bound(found, luck.profile) else Some(found);
    if Failing(backend, luck).Some? then
      (t.AbortedOf(backend, luck.startupAbort),
       Failure(if luck.startupAbort then Failing(backend, luck).value else RuntimeUnavailable))
    else if complete.None? then (t.AbortedOf(backend, luck.startupAbort), Failure(OutputInvalid))
    else t.Chosen(backend, complete.value, identity)
  }

  /** Isolated evidence of an automatic choice says why it is not the official one. */
  function Fallback(reason: Reason): Evidence { Evidence(Auto, IsolatedChromium, Some(reason), false, 0, false) }

  function SelectingAuto(s: State, identity: Identity, luck: Luck, second: Luck): (State, Answer) {
    if s.options.official.None? then
      SelectingBackend(s, identity, IsolatedChromium,
                       Fallback(if s.options.unavailable.Some? then s.options.unavailable.value else AssetsUnavailable), second)
    else
      var t := s.Ran(OfficialChrome, true, Some(Auto), luck);
      if luck.official.None? then
        var bound := Bound(s.options.official.value.(mode := Auto), luck.profile);
        if bound.None? then (t.AbortedOf(OfficialChrome, luck.startupAbort), Failure(OutputInvalid))
        else t.Chosen(OfficialChrome, bound.value, identity)
      else
        var u := t.AbortedOf(OfficialChrome, luck.startupAbort);
        if !luck.startupAbort then (u, Failure(RuntimeUnavailable))
        else SelectingBackend(u, identity, IsolatedChromium, Fallback(FallbackReason(luck.official.value)), second)
  }

  function Selecting(s: State, identity: Identity, action: Action, luck: Luck, second: Luck): (State, Answer) {
    if !action.preflight then (s, Failure(EngineUnavailable))
    else
      match Requested(action)
      case Isolated =>
        SelectingBackend(s, identity, IsolatedChromium, Evidence(Isolated, IsolatedChromium, None, false, 0, false), second)
      case Auto => SelectingAuto(s, identity, luck, second)
      case Unknown => (s, Failure(ProtocolInvalid))
      case _ =>
        if s.options.official.None? then (s, Failure(EngineUnavailable))
        else SelectingBackend(s, identity, OfficialChrome, s.options.official.value.(mode := Native), luck)
  }

  /** A preflight that asks for the same mode under a new attachment goes on with the
      selected backend. */
  predicate Continues(s: State, identity: Identity, action: Action) {
    && action.preflight && action.mode.Some? && s.scope.SameGeneration(identity)
    && s.scope.attachment != identity.attachment && Equivalent(action.mode.value, s.evidence.mode)
  }

  function Executing(s: State, identity: Identity, action: Action, luck: Luck, second: Luck): (State, Answer) {
    if s.closed then (s, Failure(RuntimeUnavailable))
    else if s.selected.None? then Selecting(s, identity, action, luck, second)
    else if (action.mode.None? || Continues(s, identity, action)) && !s.scope.Matches(identity) then
      ExecutingRotated(s, identity, action.(mode := None), luck)
    else if action.mode.None? then ExecutingSelected(s, action, luck)
    else if !action.preflight || s.scope.SameGeneration(identity) then (s, Failure(ProtocolInvalid))
    else
      var t := s.AbortedOf(s.selected.value, luck.previousAbort);
      if luck.previousAbort then Selecting(t.Cleared(), identity, action, luck, second) else (t, Failure(RuntimeUnavailable))
  }

  function Closing(s: State): State {
    if s.closed then s
    else
      var t := if s.options.official.Some? then s.AbortedOf(OfficialChrome, true) else s;
      t.AbortedOf(IsolatedChromium, true).Cleared().(closed := true)
  }

  /** The mode that a preflight asks for. */
  function Requested(action: Action): Mode {
    match action.mode
    case None => Isolated
    case Some(OfficialAlias) => Native
    case Some(mode) => mode
  }

  datatype Request = Execute(identity: Identity, action: Action, luck: Luck, second: Luck) | Close

  /** Closing answers nothing. */
  function After(s: State, request: Request): (State, Option<Answer>) {
    match request
    case Execute(identity, action, luck, second) =>
      var (t, answer) := Executing(s, identity, action, luck, second);
      (t, Some(answer))
    case Close => (Closing(s), None)
  }

  function Begun(options: Options): State {
    State(options.(official := if options.official.None? then None else Some(NativeEvidence(options.official.value))),
          None, NO_EVIDENCE, NO_IDENTITY, false, [])
  }

  function Reached(options: Options, requests: seq<Request>): State {
    if requests == [] then Begun(options)
    else After(Reached(options, requests[..|requests| - 1]), requests[|requests| - 1]).0
  }

  // ---------- What a request promises ----------

  lemma EquivalentMeans(left: Mode, right: Mode)
    ensures Equivalent(left, right) <==> (left == right && left != Unknown) || {left, right} == {Native, OfficialAlias}
  {
    assert {Native, OfficialAlias} == {OfficialAlias, Native};
    if {left, right} == {Native, OfficialAlias} {
      assert left in {left, right} && right in {left, right} && Native in {left, right} && OfficialAlias in {left, right};
    }
  }

  /** Official evidence is complete exactly with a Profile generation that does not
      contradict the assets, and then says so and whether the Session was recovered. */
  lemma ProfileBinds(found: Evidence, profile: Option<(nat, bool)>)
    ensures var bound := Bound(found, profile);
            && (bound.Some? <==>
                  && profile.Some? && profile.value.0 != 0 && found.generation in {0, profile.value.0}
                  && Evidence(found.mode, found.backend, found.reason, found.assets, profile.value.0, profile.value.1).Validates())
            && (bound.Some? ==>
                  bound.value == Evidence(found.mode, found.backend, found.reason, found.assets, profile.value.0, profile.value.1))
  {
  }

  /** What evidence that validates says for certain. */
  lemma EvidenceMeans(e: Evidence)
    requires e.Validates()
    ensures e.backend == OfficialChrome <==> e.generation != 0
    ensures e.backend == OfficialChrome <==> e.assets
    ensures e.backend == IsolatedChromium ==> !e.recovered
    ensures e.reason.Some? ==> e.mode == Auto && e.backend == IsolatedChromium && e.reason != Some(UnknownReason)
    ensures (e.mode in {Native, OfficialAlias} ==> e.backend == OfficialChrome) && (e.mode == Isolated ==> e.backend == IsolatedChromium)
    ensures e.mode != Unknown
  {
  }

  /** What a failed start of the official backend is put down to. */
  lemma StartupIsClassified(code: Code)
    ensures FallbackReason(code) == EgressPreflightFailed <==> code == EgressUnavailable
    ensures FallbackReason(code) == ProfilePreflightFailed <==>
              code in {ProfileLocked, ProfileCorrupt, EnvironmentMismatch, EngineDowngrade, EngineUpgrade}
    ensures FallbackReason(code) == ProtocolMismatch <==> code in {ProtocolInvalid, OutputInvalid}
    ensures FallbackReason(code) in {EgressPreflightFailed, ProfilePreflightFailed, ProtocolMismatch, StartFailed}
  {
  }

  /** The request is one for the selected backend: it names no mode, or is a preflight of
      the same Session that names the same mode under a new attachment. */
  predicate GoesOn(s: State, identity: Identity, action: Action) {
    || action.mode.None?
    || (action.preflight && InSession(s.scope, identity) && s.scope.attachment != identity.attachment
        && Equivalent(action.mode.value, s.evidence.mode))
  }

  predicate InSession(scope: Identity, identity: Identity) {
    scope.agent == identity.agent && scope.principal == identity.principal && scope.session == identity.session
    && scope.sessionEpoch == identity.sessionEpoch
  }

  /** The selected backend answers what is for it exactly if it succeeds, with evidence
      that is complete; its own failure is passed on. Only a preflight under another
      attachment can lose it, where it is shut down. */
  lemma SelectedGoesOn(s: State, identity: Identity, action: Action, luck: Luck, second: Luck)
    requires !s.closed && s.selected.Some? && GoesOn(s, identity, action)
    ensures var (t, answer) := Executing(s, identity, action, luck, second);
            var b := s.selected.value;
            var here := InSession(s.scope, identity) && s.scope.attachment == identity.attachment;
            var official := action.preflight && s.evidence.backend == OfficialChrome;
            && (answer.Observed? <==> Failing(b, luck).None? && (official ==> Bound(s.evidence, luck.profile).Some?))
            && (answer.Observed? ==>
                  && t.selected == s.selected && t.log == s.log + [Executed(b, action.preflight, s.selected, None, true)]
                  && t.scope == (if here then s.scope else identity)
                  && Some(t.evidence) == (if official then Bound(s.evidence, luck.profile) else Some(s.evidence))
                  && answer.evidence == if action.preflight then Some(t.evidence) else None)
            && (Failing(b, luck).Some? ==>
                  answer.code == if action.preflight && !here && !luck.startupAbort then RuntimeUnavailable else Failing(b, luck).value)
            && (answer.Failure? && (here || !action.preflight) ==> t == s.(log := t.log))
            && (answer.Failure? && !here && action.preflight ==>
                  && |t.log| == |s.log| + 2 && t.log[|s.log| + 1] == Aborted(b, luck.startupAbort)
                  && (t.selected.Some? <==> Failing(b, luck).Some? && !luck.startupAbort))
  {
  }

  /** Anything else is refused while a backend is selected, unless it is a preflight of
      another Session: that shuts the backend down and then starts from nothing. */
  lemma SelectedRefuses(s: State, identity: Identity, action: Action, luck: Luck, second: Luck)
    requires !s.closed && s.selected.Some? && !GoesOn(s, identity, action)
    ensures var (t, answer) := Executing(s, identity, action, luck, second);
            var b := s.selected.value;
            var down := s.(log := s.log + [Aborted(b, luck.previousAbort)]);
            if !action.preflight || InSession(s.scope, identity) then t == s && answer == Failure(ProtocolInvalid)
            else if !luck.previousAbort then t == down && answer == Failure(RuntimeUnavailable)
            else (t, answer) == Executing(down.(selected := None, evidence := NO_EVIDENCE, scope := NO_IDENTITY), identity, action, luck, second)
  {
  }

  /** Before a selection only a preflight is answered, and a selection is for it. */
  lemma NothingSelected(s: State, identity: Identity, action: Action, luck: Luck, second: Luck)
    requires !s.closed && s.selected.None?
    ensures var (t, answer) := Executing(s, identity, action, luck, second);
            && (answer.Observed? <==> t.selected.Some?)
            && (answer.Observed? ==> t.scope == identity && answer.evidence == Some(t.evidence) && t.evidence.backend == t.selected.value)
            && (!action.preflight ==> t == s && answer == Failure(EngineUnavailable))
            && (action.preflight && action.mode == Some(Unknown) ==> t == s && answer == Failure(ProtocolInvalid))
  {
    if s.options.official.Some? {
      ProfileBinds(s.options.official.value.(mode := Auto), luck.profile);
      ProfileBinds(s.options.official.value.(mode := Native), luck.profile);
    }
  }

  /** The isolated mode, which is meant where none is named, needs the isolated backend. */
  lemma IsolatedIsSelected(s: State, identity: Identity, mode: Option<Mode>, luck: Luck, second: Luck)
    requires !s.closed && s.selected.None? && mode in {None, Some(Isolated)}
    ensures var (t, answer) := Executing(s, identity, Action(true, mode), luck, second);
            && (answer.Observed? <==> second.isolated.None?)
            && (answer.Observed? ==> t.evidence == Evidence(Isolated, IsolatedChromium, None, false, 0, false))
            && (answer.Failure? ==> answer.code == if second.startupAbort then second.isolated.value else RuntimeUnavailable)
  {
  }

  /** The native mode needs the official backend, with complete evidence. */
  lemma NativeIsSelected(s: State, identity: Identity, mode: Mode, luck: Luck, second: Luck)
    requires !s.closed && s.selected.None? && mode in {Native, OfficialAlias}
    ensures var (t, answer) := Executing(s, identity, Action(true, Some(mode)), luck, second);
            var bound := if s.options.official.None? then None else Bound(s.options.official.value.(mode := Native), luck.profile);
            && (answer.Observed? <==> s.options.official.Some? && luck.official.None? && bound.Some?)
            && (answer.Observed? ==> t.selected == Some(OfficialChrome) && Some(t.evidence) == bound)
            && (answer.Failure? ==>
                  answer.code == (if s.options.official.None? then EngineUnavailable
                                  else if luck.official.None? then OutputInvalid
                                  else if luck.startupAbort then luck.official.value else RuntimeUnavailable))
  {
  }

  /** The automatic mode takes the official backend where it starts, and the isolated one
      where the official one is absent or has failed to start and could be shut down;
      the evidence says why. */
  lemma AutoIsSelected(s: State, identity: Identity, luck: Luck, second: Luck)
    requires !s.closed && s.selected.None?
    ensures var (t, answer) := Executing(s, identity, Action(true, Some(Auto)), luck, second);
            var bound := if s.options.official.None? then None else Bound(s.options.official.value.(mode := Auto), luck.profile);
            var reason := if s.options.official.Some? && luck.official.Some? then FallbackReason(luck.official.value)
                          else if s.options.unavailable.Some? then s.options.unavailable.value else AssetsUnavailable;
            if s.options.official.Some? && luck.official.None? then
              && (answer.Observed? <==> bound.Some?)
              && (answer.Observed? ==> t.selected == Some(OfficialChrome) && Some(t.evidence) == bound)
            else
              && (answer.Observed? <==> (s.options.official.Some? ==> luck.startupAbort) && second.isolated.None?)
              && (answer.Observed? ==> t.evidence == Evidence(Auto, IsolatedChromium, Some(reason), false, 0, false))
              && (answer.Failure? && (s.options.official.Some? ==> luck.startupAbort) ==>
                    answer.code == if second.startupAbort then second.isolated.value else RuntimeUnavailable)
              && (s.options.official.Some? && !luck.startupAbort ==> answer == Failure(RuntimeUnavailable))
  {
  }

  /** A closed selector answers nothing any more and calls nobody. */
  lemma ClosedForGood(s: State, identity: Identity, action: Action, luck: Luck, second: Luck)
    ensures var c := Closing(s);
            && c.closed && (!s.closed ==> c.selected.None?) && Closing(c) == c
            && Executing(c, identity, action, luck, second) == (c, Failure(RuntimeUnavailable))
            && (!s.closed ==>
                  c.log == s.log + (if s.options.official.Some? then [Aborted(OfficialChrome, true)] else [])
                           + [Aborted(IsolatedChromium, true)])
  {
  }

  // ---------- The selector ----------

  class Selector {
    const options: Options
    var selected: Option<Backend>
    var evidence: Evidence
    var scope: Identity
    var closed: bool
    ghost var log: seq<Call>

    constructor (options: Options)
      requires Acceptable(options)
      ensures Valid() && View() == Begun(options)
    {
      this.options := options.(official := if options.official.None? then None else Some(NativeEvidence(options.official.value)));
      selected, evidence, scope, closed, log := None, NO_EVIDENCE, NO_IDENTITY, false, [];
    }

    ghost function View(): State
      reads this
    {
      State(options, selected, evidence, scope, closed, log)
    }

    ghost predicate Valid()
      reads this
    {
      && Acceptable(options) && (options.official.Some? ==> options.official.value.Validates() && options.official.value.mode == Native)
      && (selected.Some? ==> evidence.Validates() && evidence.backend == selected.value)
      && (selected == Some(OfficialChrome) ==> options.official.Some?)
      && Proper(log, options.official.Some?)
      && Running(log) <= Stuck(log) + (if selected.Some? then {selected.value} else {})
    }

    /** A backend executes the action, if it is the selected one or being tried. */
    method Run(backend: Backend, action: Action, mode: Option<Mode>, luck: Luck) returns (failure: Option<Code>)
      requires Proper(log, options.official.Some?)
      requires !action.preflight ==> selected == Some(backend)
      requires options.official.Some? && backend == IsolatedChromium && mode == Some(Auto) ==>
                 && 2 <= |log| && log[|log| - 1] == Aborted(OfficialChrome, true)
                 && log[|log| - 2] == Executed(OfficialChrome, true, None, Some(Auto), false)
      modifies `log
      ensures failure == if backend == OfficialChrome then luck.official else luck.isolated
      ensures log == old(log) + [Executed(backend, action.preflight, selected, mode, failure.None?)]
      ensures Proper(log, options.official.Some?)
      ensures Running(log) == if action.preflight then Running(old(log)) + {backend} else Running(old(log))
      ensures Stuck(log) == Stuck(old(log))
    {
      failure := if backend == OfficialChrome then luck.official else luck.isolated;
      ghost var call := Executed(backend, action.preflight, selected, mode, failure.None?);
      LogAfter(log, call, options.official.Some?);
      log := log + [call];
    }

    method AbortStartup(backend: Backend, ok: bool)
      requires Proper(log, options.official.Some?)
      modifies `log
      ensures log == old(log) + [Aborted(backend, ok)] && Proper(log, options.official.Some?)
      ensures Running(log) == if ok then Running(old(log)) - {backend} else Running(old(log))
      ensures Stuck(log) == if ok then Stuck(old(log)) - {backend} else Stuck(old(log)) + {backend}
    {
      LogAfter(log, Aborted(backend, ok), options.official.Some?);
      log := log + [Aborted(backend, ok)];
    }

    /** A backend's startup succeeds, with complete evidence if it is official. */
    predicate Starts(backend: Backend, found: Evidence, luck: Luck) {
      Failing(backend, luck).None? && (backend == OfficialChrome ==> Bound(found, luck.profile).Some?)
    }

    /** Whether a preflight that asks for this mode selects a backend. */
    predicate Selects(mode: Mode, luck: Luck, second: Luck) {
      match mode
      case Isolated => second.isolated.None?
      case Auto =>
        if options.official.None? then second.isolated.None?
        else if luck.official.None? then Bound(options.official.value.(mode := Auto), luck.profile).Some?
        else luck.startupAbort && second.isolated.None?
      case Unknown => false
      case _ => options.official.Some? && Starts(OfficialChrome, options.official.value.(mode := Native), luck)
    }

    /** Whether the selected backend answers an action. */
    predicate Answers(action: Action, luck: Luck)
      reads this
    {
      && selected.Some? && Failing(selected.value, luck).None?
      && (action.preflight && evidence.backend == OfficialChrome ==> Bound(evidence, luck.profile).Some?)
    }

    method Clear()
      modifies `selected, `evidence, `scope
      ensures View() == old(View()).Cleared()
    {
      selected, evidence, scope := None, NO_EVIDENCE, NO_IDENTITY;
    }

    // ---------- Execute ----------

    /** Continues a Session whose attachment has rotated on the selected backend. */
    method ExecuteRotated(identity: Identity, action: Action, luck: Luck) returns (answer: Answer)
      requires Valid() && selected.Some?
      modifies this
      ensures Valid() && closed == old(closed)
      ensures (View(), answer) == ExecutingRotated(old(View()), identity, action, luck)
      ensures answer.Observed? <==> old(Answers(action, luck))
      ensures answer.Observed? ==> selected == old(selected) && scope == identity && evidence.mode == old(evidence.mode)
      ensures answer.Observed? ==> answer.evidence == if action.preflight then Some(evidence) else None
      ensures selected.Some? ==> selected == old(selected)
      ensures !action.preflight ==> selected == old(selected) && evidence == old(evidence)
    {
      hide Proper, Running, Stuck;
      var backend := selected.value;
      var failure := Run(backend, action, None, luck);
      if failure.Some? {
        if action.preflight {
          AbortStartup(backend, luck.startupAbort);
          if !luck.startupAbort {
            return Failure(RuntimeUnavailable);
          }
          Clear();
        }
        return Failure(failure.value);
      }
      scope := identity;
      if !action.preflight {
        return Observed(None);
      }
      if evidence.backend == OfficialChrome {
        var bound := Bound(evidence, luck.profile);
        if bound.None? {
          AbortStartup(backend, luck.startupAbort);
          Clear();
          return Failure(OutputInvalid);
        }
        evidence := bound.value;
      }
      return Observed(Some(evidence));
    }

    /** The selected backend in its own scope. */
    method ExecuteSelected(identity: Identity, action: Action, luck: Luck) returns (answer: Answer)
      requires Valid() && selected.Some? && scope.Matches(identity)
      modifies this
      ensures Valid() && closed == old(closed) && selected == old(selected) && scope == old(scope)
      ensures (View(), answer) == ExecutingSelected(old(View()), action, luck)
      ensures evidence.mode == old(evidence.mode)
      ensures answer.Observed? <==> old(Answers(action, luck))
      ensures answer.Observed? ==> answer.evidence == if action.preflight then Some(evidence) else None
    {
      hide Proper, Running, Stuck;
      var failure := Run(selected.value, action, None, luck);
      if failure.Some? {
        return Failure(failure.value);
      }
      if !action.preflight {
        return Observed(None);
      }
      if evidence.backend == OfficialChrome {
        var bound := Bound(evidence, luck.profile);
        if bound.None? {
          return Failure(OutputInvalid);
        }
        evidence := bound.value;
      }
      return Observed(Some(evidence));
    }

    /** Tries one backend; only a success with complete evidence selects it. */
    method SelectBackend(identity: Identity, backend: Backend, found: Evidence, luck: Luck) returns (answer: Answer)
      requires Valid() && selected.None? && found.backend == backend
      requires backend == OfficialChrome ==> options.official.Some?
      requires if backend == IsolatedChromium then found.Validates() else found.mode != Unknown
      requires options.official.Some? && backend == IsolatedChromium && found.mode == Auto ==>
                 && 2 <= |log| && log[|log| - 1] == Aborted(OfficialChrome, true)
                 && log[|log| - 2] == Executed(OfficialChrome, true, None, Some(Auto), false)
      modifies this
      ensures Valid() && closed == old(closed)
      ensures (View(), answer) == SelectingBackend(old(View()), identity, backend, found, luck)
      ensures answer.Observed? <==> selected.Some?
      ensures answer.Observed? <==> Starts(backend, found, luck)
      ensures answer.Failure? && Failing(backend, luck).Some? ==>
                answer.code == if luck.startupAbort then Failing(backend, luck).value else RuntimeUnavailable
      ensures answer.Observed? ==>
                && selected == Some(backend) && scope == identity && answer.evidence == Some(evidence)
                && evidence.mode == found.mode && evidence.reason == found.reason
    {
      hide Proper, Running, Stuck;
      var failure := Run(backend, Action(true, None), Some(found.mode), luck);
      if failure.Some? {
        AbortStartup(backend, luck.startupAbort);
        return Failure(if luck.startupAbort then failure.value else RuntimeUnavailable);
      }
      var complete := Some(found);
      if backend == OfficialChrome {
        complete := Bound(found, luck.profile);
        if complete.None? {
          AbortStartup(backend, luck.startupAbort);
          return Failure(OutputInvalid);
        }
      }
      selected, evidence, scope := Some(backend), complete.value, identity;
      return Observed(Some(evidence));
    }

    /** The official backend first, then the isolated one. `second` is what the
        isolated backend's startup meets. */
    method SelectAuto(identity: Identity, luck: Luck, second: Luck) returns (answer: Answer)
      requires Valid() && selected.None?
      modifies this
      ensures Valid() && closed == old(closed)
      ensures (View(), answer) == SelectingAuto(old(View()), identity, luck, second)
      ensures answer.Observed? <==> selected.Some?
      ensures answer.Observed? <==> Selects(Auto, luck, second)
      ensures answer.Observed? ==> scope == identity && answer.evidence == Some(evidence) && evidence.mode == Auto
      ensures selected == Some(OfficialChrome) ==> luck.official.None? && evidence.reason.None?
      ensures selected == Some(IsolatedChromium) && options.official.Some? ==> luck.official.Some? && luck.startupAbort
      ensures selected == Some(IsolatedChromium) ==>
                evidence.reason == Some(if options.official.Some? then FallbackReason(luck.official.value)
                                        else if options.unavailable.Some? then options.unavailable.value else AssetsUnavailable)
    {
      hide Proper, Running, Stuck;
      var reason := if options.unavailable.Some? then options.unavailable.value else AssetsUnavailable;
      if options.official.Some? {
        var failure := Run(OfficialChrome, Action(true, None), Some(Auto), luck);
        if failure.None? {
          var bound := Bound(options.official.value.(mode := Auto), luck.profile);
          if bound.None? {
            AbortStartup(OfficialChrome, luck.startupAbort);
            return Failure(OutputInvalid);
          }
          selected, evidence, scope := Some(OfficialChrome), bound.value, identity;
          return Observed(Some(evidence));
        }
        reason := FallbackReason(failure.value);
        AbortStartup(OfficialChrome, luck.startupAbort);
        if !luck.startupAbort {
          return Failure(RuntimeUnavailable);
        }
      }
      answer := SelectBackend(identity, IsolatedChromium, Evidence(Auto, IsolatedChromium, Some(reason), false, 0, false), second);
    }

    /** Chooses by the requested mode; no mode means the isolated backend. */
    method Select(identity: Identity, action: Action, luck: Luck, second: Luck) returns (answer: Answer)
      requires Valid() && selected.None?
      modifies this
      ensures Valid() && closed == old(closed)
      ensures (View(), answer) == Selecting(old(View()), identity, action, luck, second)
      ensures !action.preflight ==> answer == Failure(EngineUnavailable) && log == old(log) && selected == None
      ensures answer.Observed? <==> selected.Some?
      ensures answer.Observed? <==> action.preflight && Selects(Requested(action), luck, second)
      ensures answer.Observed? ==>
                && action.preflight && scope == identity && answer.evidence == Some(evidence)
                && evidence.mode == Requested(action) && Serves(selected.value, Requested(action))
    {
      hide Proper, Running, Stuck;
      if !action.preflight {
        return Failure(EngineUnavailable);
      }
      var mode := if action.mode.None? then Isolated else action.mode.value;
      match mode {
        case Isolated =>
          answer := SelectBackend(identity, IsolatedChromium, Evidence(Isolated, IsolatedChromium, None, false, 0, false), second);
        case Auto => answer := SelectAuto(identity, luck, second);
        case Unknown => answer := Failure(ProtocolInvalid);
        case _ =>
          if options.official.None? {
            return Failure(EngineUnavailable);
          }
          answer := SelectBackend(identity, OfficialChrome, options.official.value.(mode := Native), luck);
      }
    }

    /** The whole request. `luck` is what the selected or first backend meets,
        `second` what the fallback meets. */
    method Execute(identity: Identity, action: Action, luck: Luck, second: Luck) returns (answer: Answer)
      requires Valid()
      modifies this
      ensures Valid() && closed == old(closed)
      ensures (View(), answer) == Executing(old(View()), identity, action, luck, second)
      ensures closed ==> answer == Failure(RuntimeUnavailable) && log == old(log) && selected == old(selected)
      ensures old(!closed && selected.None?) ==>
                (answer.Observed? <==> action.preflight && Selects(Requested(action), luck, second))
      ensures old(!closed && selected.Some?) && action.mode.None? ==> (answer.Observed? <==> old(Answers(action, luck)))
      ensures answer.Observed? ==> selected.Some? && scope.Matches(identity)
      ensures answer.Observed? && action.preflight ==>
                && answer.evidence == Some(evidence)
                && (action.mode.Some? ==> Serves(selected.value, action.mode.value))
                && (action.mode.Some? ==> Equivalent(action.mode.value, evidence.mode))
      ensures !action.preflight ==> selected == old(selected) && (old(selected).None? ==> answer.Failure?)
    {
      hide Proper, Running, Stuck;
      if closed {
        return Failure(RuntimeUnavailable);
      }
      if selected.Some? {
        var continues := action.preflight && action.mode.Some? && scope.SameGeneration(identity) &&
                         scope.attachment != identity.attachment && Equivalent(action.mode.value, evidence.mode);
        if (action.mode.None? || continues) && !scope.Matches(identity) {
          if continues {
            EquivalentModesServeAlike(action.mode.value, evidence.mode, selected.value);
          }
          answer := ExecuteRotated(identity, action.(mode := None), luck);
          return;
        }
        if action.mode.None? {
          answer := ExecuteSelected(identity, action, luck);
          return;
        }
        if !action.preflight || scope.SameGeneration(identity) {
          return Failure(ProtocolInvalid);
        }
        AbortStartup(selected.value, luck.previousAbort);
        if !luck.previousAbort {
          return Failure(RuntimeUnavailable);
        }
        Clear();
      }
      answer := Select(identity, action, luck, second);
    }

    method Close()
      requires Valid()
      modifies this
      ensures Valid() && closed && (old(!closed) ==> selected == None)
      ensures View() == Closing(old(View()))
    {
      if closed {
        return;
      }
      closed := true;
      Shut();
    }

    method Handle(request: Request) returns (answer: Option<Answer>)
      requires Valid()
      modifies this
      ensures Valid() && (View(), answer) == After(old(View()), request)
    {
      hide Proper, Running, Stuck, Executing, Closing;
      match request {
        case Execute(identity, action, luck, second) =>
          var given := Execute(identity, action, luck, second);
          answer := Some(given);
        case Close =>
          Close();
          answer := None;
      }
    }

    /** Both backends are closed for good. */
    method Shut()
      requires Valid()
      modifies `selected, `evidence, `scope, `log
      ensures Valid() && selected == None
      ensures View() == (if options.official.Some? then old(View()).AbortedOf(OfficialChrome, true) else old(View()))
                          .AbortedOf(IsolatedChromium, true).Cleared()
    {
      if options.official.Some? {
        AbortStartup(OfficialChrome, true);
      }
      AbortStartup(IsolatedChromium, true);
      Clear();
    }
  }

  // ---------- Whole runs ----------

  /** Any requests and any answers: the selector is where they lead, each is answered
      as the requests before it demand, and the calls that reached the backends are
      proper, with nothing left running but the selected backend and what could not
      be aborted. */
  method Serve(options: Options, requests: seq<Request>) returns (selector: Selector, answers: seq<Option<Answer>>)
    requires Acceptable(options)
    ensures fresh(selector) && selector.Valid() && selector.View() == Reached(options, requests) && |answers| == |requests|
    ensures forall i :: 0 <= i < |requests| ==> answers[i] == After(Reached(options, requests[..i]), requests[i]).1
    ensures Proper(Reached(options, requests).log, options.official.Some?)
    ensures var s := Reached(options, requests);
            Running(s.log) <= Stuck(s.log) + (if s.selected.Some? then {s.selected.value} else {})
  {
    hide Proper, Running, Stuck, After;
    selector := new Selector(options);
    answers := [];
    var i := 0;
    while i < |requests|
      invariant 0 <= i == |answers| <= |requests| && fresh(selector) && selector.Valid()
      invariant selector.View() == Reached(options, requests[..i])
      invariant selector.options.official.Some? == options.official.Some?
      invariant forall j :: 0 <= j < i ==> answers[j] == After(Reached(options, requests[..j]), requests[j]).1
    {
      assert requests[..i + 1][..i] == requests[..i];
      var answer := selector.Handle(requests[i]);
      answers, i := answers + [answer], i + 1;
    }
    assert requests[..|requests|] == requests;
    CallsAreProper(selector);
  }

  lemma CallsAreProper(selector: Selector)
    requires selector.Valid()
    ensures Proper(selector.log, selector.options.official.Some?)
    ensures Running(selector.log) <= Stuck(selector.log) + (if selector.selected.Some? then {selector.selected.value} else {})
  {
  }
}

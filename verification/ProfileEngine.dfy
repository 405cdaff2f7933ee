/** Loading, upgrading and checkpointing Profiles under a locked environment, over
    whole runs of engines with different Browser versions on one store. */
module ProfileEngine {
  import opened Basics

  datatype Version = Version(major: nat, minor: nat, build: nat, patch: nat)

  /** Lexicographic, from the first part on. */
  function Compare(v: Version, w: Version): int {
    if v.major != w.major then v.major - w.major
    else if v.minor != w.minor then v.minor - w.minor
    else if v.build != w.build then v.build - w.build
    else v.patch - w.patch
  }

  lemma CompareIsAnOrder(u: Version, v: Version, w: Version)
    ensures Compare(v, v) == 0 && (Compare(v, w) == 0 ==> v == w)
    ensures Compare(v, w) < 0 <==> Compare(w, v) > 0
    ensures Compare(u, v) <= 0 && Compare(v, w) <= 0 ==> Compare(u, w) <= 0
  {
  }

  /** The first part that differs decides. */
  lemma CompareFromTheFirstPart(v: Version, w: Version)
    ensures Compare(v, w) < 0 <==>
              || v.major < w.major
              || (v.major == w.major && v.minor < w.minor)
              || (v.major == w.major && v.minor == w.minor && v.build < w.build)
              || (v.major == w.major && v.minor == w.minor && v.build == w.build && v.patch < w.patch)
  {
  }

  /** `binding` stands for everything beside the Profile generation that a Profile is
      bound to. */
  datatype Environment = Environment(generation: nat, binding: nat, version: Version)
  {
    predicate BindsLike(other: Environment) { generation == other.generation && binding == other.binding }
  }

  datatype Profile = Profile(agent: nat, principal: nat, generation: nat)

  datatype Identity = Identity(agent: nat, principal: nat, session: nat, sessionEpoch: nat, owner: nat)

  /** A stored Profile: legacy ones do not record their environment. */
  datatype Saved = Saved(environment: Option<Environment>, content: nat)

  datatype Code = EngineUpgrade | EngineDowngrade | EnvironmentMismatch | ProfileCorrupt | EngineUnavailable | Runtime

  datatype Answer = Done | Failed(code: Code)

  datatype Kind = Preflight | Checkpoint | Close | Other

  /** How the store takes a Profile. `Lost` if it cannot authenticate the old one and
      moves it away. */
  datatype Write = Written | Unwritten | Uncertain(landed: bool) | Lost

  /** How the store opens a Profile. `Broken` if it takes it for corrupt, and then it
      may have moved it away. */
  datatype Opening = Opens | Broken(moved: bool) | Unopened

  /** How the steps of one request turn out. `valid` says whether the work directory
      makes sense, `reported` is the environment that a preflight observes. */
  datatype Luck = Luck(pruned: set<Profile>, prepared: bool, opened_: Opening, extracted: bool, valid: bool,
                       quarantined: bool, environmentRead: bool, archived: bool, spawned: bool, ran: bool,
                       reported: Option<Environment>, stopped: bool, still: bool, write: Write, content: nat,
                       again: bool)

  datatype Active = Active(profile: Profile, session: nat, sessionEpoch: nat, owner: nat, exists_: bool, process: bool,
                           validated: bool, upgradePending: bool, adoptionPending: bool)
  {
    /** Nothing may be stored before a preflight. */
    predicate Unproven() { (upgradePending || adoptionPending) && !validated }
  }

  // ---------- Histories ----------

  /** `Locked`: a preflight has seen the environment that its engine is locked to. */
  datatype Event = Started(environment: Environment) | Activated(profile: Profile)
                 | Locked(profile: Profile, environment: Environment)
                 | Stored(profile: Profile, before: Option<Saved>, after: Saved)
                 | Removed(profiles: set<Profile>)

  /** What an event leaves in the store. */
  function Applied(saved: map<Profile, Saved>, e: Event): map<Profile, Saved> {
    match e
    case Stored(p, _, after) => saved[p := after]
    case Removed(profiles) => saved - profiles
    case _ => saved
  }

  /** What the store holds after these events. */
  function Replay(origin: map<Profile, Saved>, log: seq<Event>): map<Profile, Saved> {
    if log == [] then origin else Applied(Replay(origin, log[..|log| - 1]), log[|log| - 1])
  }

  function Lookup(saved: map<Profile, Saved>, p: Profile): Option<Saved> {
    if p in saved then Some(saved[p]) else None
  }

  predicate Fits(environment: Environment, saved: Saved) {
    saved.environment.Some? ==>
      saved.environment.value.BindsLike(environment) && Compare(saved.environment.value.version, environment.version) <= 0
  }

  /** Storing under this environment would change the recorded one. */
  predicate Pending(environment: Environment, saved: Saved) {
    saved.environment.None? || Compare(saved.environment.value.version, environment.version) < 0
  }

  predicate NotOlder(before: Saved, after: Saved) {
    before.environment.Some? ==>
      && after.environment.Some? && after.environment.value.BindsLike(before.environment.value)
      && Compare(before.environment.value.version, after.environment.value.version) <= 0
  }

  /** Since the Profile was last activated a preflight has seen this environment. */
  predicate Proven(log: seq<Event>, profile: Profile, environment: Environment) {
    && log != []
    && match log[|log| - 1]
       case Locked(p, e) => (p == profile && e == environment) || Proven(log[..|log| - 1], profile, environment)
       case Activated(_) => false
       case Started(_) => false
       case _ => Proven(log[..|log| - 1], profile, environment)
  }

  /** A Profile is stored over what the store held, under an environment of its
      generation that is not older; and where that changes the recorded environment,
      after a preflight that saw it. */
  predicate Careful(origin: map<Profile, Saved>, log: seq<Event>, i: nat) {
    i < |log| && log[i].Stored? ==>
      var Stored(p, before, after) := log[i];
      && before == Lookup(Replay(origin, log[..i]), p)
      && after.environment.Some? && p.generation == after.environment.value.generation
      && (before.Some? ==> NotOlder(before.value, after))
      && (before.Some? && Pending(after.environment.value, before.value) ==> Proven(log[..i], p, after.environment.value))
  }

  /** As long as a Profile stays in the store its Browser version never decreases. */
  lemma {:induction false} NeverGoesBack(origin: map<Profile, Saved>, log: seq<Event>, i: nat, j: nat, p: Profile)
    requires (forall k :: Careful(origin, log, k)) && i <= j <= |log|
    requires forall k :: i <= k <= j ==> p in Replay(origin, log[..k])
    ensures NotOlder(Replay(origin, log[..i])[p], Replay(origin, log[..j])[p])
    decreases j - i
  {
    if i < j {
      NeverGoesBack(origin, log, i, j - 1, p);
      assert p in Replay(origin, log[..j - 1]) && p in Replay(origin, log[..j]);
      assert log[..j][..j - 1] == log[..j - 1] && Careful(origin, log, j - 1);
    }
  }

  // ---------- What the engine does ----------

  datatype State = State(environment: Environment, saved: map<Profile, Saved>, active: Option<Active>, closed: bool, log: seq<Event>)
  {
    function Noted(e: Event): State { this.(log := log + [e]) }

    function Without(profiles: set<Profile>): State { Noted(Removed(profiles)).(saved := saved - profiles) }

    function With(p: Profile, after: Saved): State { Noted(Stored(p, Lookup(saved, p), after)).(saved := saved[p := after]) }

    /** Gives the active Profile up without storing anything. */
    function Discarded(): State { this.(active := None) }

    predicate Mismatch(stored: Saved) {
      stored.environment.Some? && !stored.environment.value.BindsLike(environment)
    }

    predicate Downgrade(stored: Saved) {
      stored.environment.Some? && Compare(stored.environment.value.version, environment.version) > 0
    }
  }

  /** Stores the active Profile under the locked environment. */
  function StoringActive(s: State, luck: Luck): (State, bool)
    requires s.active.Some?
  {
    var a := s.active.value;
    if a.exists_ != (a.profile in s.saved) then (s, false)
    else
      match luck.write
      case Written => (s.With(a.profile, Saved(Some(s.environment), luck.content)), true)
      case Uncertain(landed) => (if landed then s.With(a.profile, Saved(Some(s.environment), luck.content)) else s, false)
      case Lost => (if a.exists_ then s.Without({a.profile}) else s, false)
      case Unwritten => (s, false)
  }

  /** A work directory that makes no sense: the stored Profile is moved away too. */
  function QuarantiningActive(s: State, luck: Luck): State
    requires s.active.Some?
  {
    var a := s.active.value;
    (if a.exists_ && luck.quarantined then s.Without({a.profile}) else s).Discarded()
  }

  /** Stops the Browser and stores what it left. */
  function Committing(s: State, retain: bool, luck: Luck): (State, Answer)
    requires s.active.Some?
  {
    var a := s.active.value;
    if a.process && !luck.stopped then (s, Failed(Runtime))
    else
      var t := s.(active := Some(a.(process := false)));
      if !luck.still then (QuarantiningActive(t, luck), Failed(ProfileCorrupt))
      else if !luck.archived then (t, Failed(Runtime))
      else
        var (u, ok) := StoringActive(t, luck);
        if !ok then (u, Failed(if luck.write == Lost then ProfileCorrupt else Runtime))
        else
          (u.(active := if retain
                        then Some(a.(process := false, exists_ := true, upgradePending := false, validated := true,
                                     adoptionPending := false))
                        else None), Done)
  }

  /** The checkpoint at the end of a Session, or within it. */
  function Checkpointing(s: State, retain: bool, luck: Luck): (State, Answer) {
    if s.active.None? then (s, Done)
    else if s.active.value.upgradePending && !s.active.value.validated then
      (s.Discarded(), if luck.stopped then Done else Failed(Runtime))
    else if s.active.value.adoptionPending && !s.active.value.validated then (s.Discarded(), Failed(EngineUnavailable))
    else Committing(s, retain, luck)
  }

  /** Reads the stored Profile, if there is one, and compares environments. */
  function Loading(s: State, identity: Identity, luck: Luck): (State, Answer) {
    var t := s.Without(luck.pruned);
    var p := Profile(identity.agent, identity.principal, s.environment.generation);
    if !luck.prepared || luck.opened_ == Unopened then (t, Failed(Runtime))
    else if luck.opened_.Broken? then
      (if luck.opened_.moved && p in t.saved then t.Without({p}) else t, Failed(ProfileCorrupt))
    else if p !in t.saved then Loaded(t, p, identity, false, false)
    else
      var stored := t.saved[p];
      if !luck.extracted then (t, Failed(ProfileCorrupt))
      else if !luck.valid || (stored.environment.Some? && !luck.environmentRead) then
        (if luck.quarantined then t.Without({p}) else t, Failed(ProfileCorrupt))
      else if t.Mismatch(stored) then (t, Failed(EnvironmentMismatch))
      else if t.Downgrade(stored) then (t, Failed(EngineDowngrade))
      else Loaded(t, p, identity, stored.environment.Some? && Pending(s.environment, stored), stored.environment.None?)
  }

  function Loaded(t: State, p: Profile, identity: Identity, upgrade: bool, adoption: bool): (State, Answer) {
    (t.Noted(Activated(p)).(active :=
       Some(Active(p, identity.session, identity.sessionEpoch, identity.owner, p in t.saved, false, false, upgrade, adoption))), Done)
  }

  predicate SameSession(s: State, identity: Identity) {
    && s.active.Some? && s.active.value.profile == Profile(identity.agent, identity.principal, s.environment.generation)
    && s.active.value.session == identity.session && s.active.value.sessionEpoch == identity.sessionEpoch
  }

  /** Loads the Profile of this identity unless it is the active one. */
  function Activating(s: State, identity: Identity, ending: Luck, luck: Luck): (State, Answer) {
    if SameSession(s, identity) then (s.(active := Some(s.active.value.(owner := identity.owner))), Done)
    else
      var (t, answer) := Checkpointing(s, false, ending);
      if answer == Done then Loading(t, identity, luck) else (t, answer)
  }

  predicate Runs(s: State, luck: Luck)
    requires s.active.Some?
  {
    s.active.value.process || luck.spawned
  }

  function Running(s: State): State
    requires s.active.Some?
  {
    s.(active := Some(s.active.value.(process := true)))
  }

  /** Proves the locked environment; a new Profile is then stored and reopened. */
  function Preflighting(s: State, luck: Luck): (State, Answer)
    requires s.active.Some?
  {
    var upgrade := s.active.value.upgradePending;
    if !Runs(s, luck) || !luck.ran then
      if upgrade then (s.Discarded(), Failed(EngineUpgrade)) else (if Runs(s, luck) then Running(s) else s, Failed(Runtime))
    else if luck.reported != Some(s.environment) then
      (s.Discarded(), Failed(if upgrade then EngineUpgrade else EngineUnavailable))
    else
      var a := s.active.value.(process := true, validated := true);
      var t := s.Noted(Locked(a.profile, s.environment)).(active := Some(a));
      if a.exists_ then (t, Done)
      else
        var (u, answer) := Checkpointing(t, true, luck);
        if answer != Done then (u, answer)
        else if luck.again then (Running(u), Done)
        else (u, Failed(Runtime))
  }

  function ExecutingActive(s: State, kind: Kind, luck: Luck): (State, Answer)
    requires s.active.Some?
  {
    if kind == Preflight then Preflighting(s, luck)
    else if kind != Close && !Runs(s, luck) then (s, Failed(Runtime))
    else
      var t := if kind == Close then s else Running(s);
      if t.active.value.process && !luck.ran then (t, Failed(Runtime))
      else if kind == Other then (t, Done)
      else Checkpointing(t, kind == Checkpoint, luck)
  }

  /** A close of what is not active is done. */
  predicate NothingToClose(s: State, identity: Identity, kind: Kind) {
    kind == Close && !(SameSession(s, identity) && s.active.value.owner == identity.owner)
  }

  function Executing(s: State, identity: Identity, kind: Kind, ending: Luck, luck: Luck): (State, Answer) {
    if s.closed then (s, Failed(Runtime))
    else if NothingToClose(s, identity, kind) then (s, Done)
    else
      var (t, answer) := Activating(s, identity, ending, luck);
      if answer == Done then ExecutingActive(t, kind, luck) else (t, answer)
  }

  function Closing(s: State, luck: Luck): State {
    if s.closed then s else Checkpointing(s.(closed := true), false, luck).0
  }

  datatype Request = Ask(identity: Identity, kind: Kind, ending: Luck, luck: Luck) | Abort | End(luck: Luck)

  /** One engine's life: an environment and requests, until it is closed or dies. */
  datatype Life = Life(environment: Environment, requests: seq<Request>)

  function AfterRequest(s: State, request: Request): State {
    match request
    case Ask(identity, kind, ending, luck) => Executing(s, identity, kind, ending, luck).0
    case Abort => if s.closed then s else s.Discarded()
    case End(luck) => Closing(s, luck)
  }

  /** What is answered; an abort and the engine's end answer nothing. */
  function Answering(s: State, request: Request): Option<Answer> {
    if request.Ask? then Some(Executing(s, request.identity, request.kind, request.ending, request.luck).1) else None
  }

  function AfterRequests(s: State, requests: seq<Request>): State {
    if requests == [] then s else AfterRequest(AfterRequests(s, requests[..|requests| - 1]), requests[|requests| - 1])
  }

  function Begun(environment: Environment, saved: map<Profile, Saved>, log: seq<Event>): State {
    State(environment, saved, None, false, log + [Started(environment)])
  }

  /** The store and the history after these lives. */
  function AfterLives(lives: seq<Life>, saved: map<Profile, Saved>): (map<Profile, Saved>, seq<Event>) {
    if lives == [] then (saved, [])
    else
      var (before, log) := AfterLives(lives[..|lives| - 1], saved);
      var life := lives[|lives| - 1];
      var s := AfterRequests(Begun(life.environment, before, log), life.requests);
      (s.saved, s.log)
  }

  // ---------- What every request keeps ----------

  /** The stored Profile of the active one fits the environment, and what is pending
      is known to be, until a preflight has proved it. */
  predicate Sane(s: State) {
    s.active.Some? ==>
      var a := s.active.value;
      && a.profile.generation == s.environment.generation
      && (a.profile in s.saved ==>
            && Fits(s.environment, s.saved[a.profile])
            && (Pending(s.environment, s.saved[a.profile]) ==>
                  a.exists_ && (a.upgradePending || a.adoptionPending) && (a.validated ==> Proven(s.log, a.profile, s.environment))))
  }

  ghost predicate Valid(origin: map<Profile, Saved>, s: State) {
    (forall i :: Careful(origin, s.log, i)) && Replay(origin, s.log) == s.saved && Sane(s)
  }

  /** One more event that stores nothing but what it may. */
  lemma EventKeeps(origin: map<Profile, Saved>, log: seq<Event>, e: Event)
    requires forall i :: Careful(origin, log, i)
    requires e.Stored? ==> Careful(origin, log + [e], |log|)
    ensures forall i :: Careful(origin, log + [e], i)
    ensures Replay(origin, log + [e]) == Applied(Replay(origin, log), e)
    ensures forall p, environment :: Proven(log, p, environment) && !e.Activated? && !e.Started? ==> Proven(log + [e], p, environment)
    ensures e.Locked? ==> Proven(log + [e], e.profile, e.environment)
  {
    assert (log + [e])[..|log|] == log;
    forall i: nat
      ensures Careful(origin, log + [e], i)
    {
      assert Careful(origin, log, i);
      if i < |log| {
        assert (log + [e])[..i] == log[..i];
      }
    }
  }

  lemma WithoutKeeps(origin: map<Profile, Saved>, s: State, profiles: set<Profile>)
    requires Valid(origin, s)
    ensures Valid(origin, s.Without(profiles))
  {
    hide Careful;
    EventKeeps(origin, s.log, Removed(profiles));
  }

  /** The active Profile may be stored as long as it is proven where it must be. */
  lemma WithKeeps(origin: map<Profile, Saved>, s: State, content: nat)
    requires Valid(origin, s) && s.active.Some? && !s.active.value.Unproven()
    ensures Valid(origin, s.With(s.active.value.profile, Saved(Some(s.environment), content)))
  {
    var p, after := s.active.value.profile, Saved(Some(s.environment), content);
    var e := Stored(p, Lookup(s.saved, p), after);
    assert (s.log + [e])[..|s.log|] == s.log;
    assert Careful(origin, s.log + [e], |s.log|);
    hide Careful;
    EventKeeps(origin, s.log, e);
  }

  lemma CheckpointingKeeps(origin: map<Profile, Saved>, s: State, retain: bool, luck: Luck)
    requires Valid(origin, s)
    ensures Valid(origin, Checkpointing(s, retain, luck).0)
  {
    hide Careful, Replay;
    if s.active.Some? && !s.active.value.Unproven() {
      var a := s.active.value;
      var t := s.(active := Some(a.(process := false)));
      WithoutKeeps(origin, t, {a.profile});
      WithKeeps(origin, t, luck.content);
    }
  }

  lemma LoadingKeeps(origin: map<Profile, Saved>, s: State, identity: Identity, luck: Luck)
    requires Valid(origin, s) && s.active.None?
    ensures Valid(origin, Loading(s, identity, luck).0)
  {
    hide Careful, Replay, Proven;
    var p := Profile(identity.agent, identity.principal, s.environment.generation);
    WithoutKeeps(origin, s, luck.pruned);
    WithoutKeeps(origin, s.Without(luck.pruned), {p});
    EventKeeps(origin, s.Without(luck.pruned).log, Activated(p));
  }

  lemma PreflightingKeeps(origin: map<Profile, Saved>, s: State, luck: Luck)
    requires Valid(origin, s) && s.active.Some?
    ensures Valid(origin, Preflighting(s, luck).0)
  {
    hide Careful, Replay, Checkpointing;
    var a := s.active.value.(process := true, validated := true);
    var locked := Locked(a.profile, s.environment);
    EventKeeps(origin, s.log, locked);
    CheckpointingKeeps(origin, s.Noted(locked).(active := Some(a)), true, luck);
    CheckpointStays(s.Noted(locked).(active := Some(a)), luck);
  }

  /** A retaining checkpoint that succeeds leaves the Profile active. */
  lemma CheckpointStays(s: State, luck: Luck)
    requires s.active.Some? && !s.active.value.Unproven()
    ensures Checkpointing(s, true, luck).1 == Done ==> Checkpointing(s, true, luck).0.active.Some?
  {
  }

  lemma ActivatingKeeps(origin: map<Profile, Saved>, s: State, identity: Identity, ending: Luck, luck: Luck)
    requires Valid(origin, s)
    ensures Valid(origin, Activating(s, identity, ending, luck).0)
    ensures Activating(s, identity, ending, luck).1 == Done ==> Activating(s, identity, ending, luck).0.active.Some?
  {
    hide Careful, Replay, Proven, Committing, StoringActive, QuarantiningActive;
    CheckpointingKeeps(origin, s, false, ending);
    CheckpointEnds(s, ending);
    if !SameSession(s, identity) && Checkpointing(s, false, ending).1 == Done {
      LoadingKeeps(origin, Checkpointing(s, false, ending).0, identity, luck);
    }
  }

  lemma CheckpointEnds(s: State, luck: Luck)
    ensures Checkpointing(s, false, luck).1 == Done ==> Checkpointing(s, false, luck).0.active.None?
  {
  }

  lemma ExecutingKeeps(origin: map<Profile, Saved>, s: State, identity: Identity, kind: Kind, ending: Luck, luck: Luck)
    requires Valid(origin, s)
    ensures Valid(origin, Executing(s, identity, kind, ending, luck).0)
  {
    hide Careful, Replay, Activating, Checkpointing, Preflighting;
    ActivatingKeeps(origin, s, identity, ending, luck);
    var (t, answer) := Activating(s, identity, ending, luck);
    if answer == Done {
      PreflightingKeeps(origin, t, luck);
      CheckpointingKeeps(origin, t, kind == Checkpoint, luck);
      CheckpointingKeeps(origin, Running(t), kind == Checkpoint, luck);
    }
  }

  lemma RequestKeeps(origin: map<Profile, Saved>, s: State, request: Request)
    requires Valid(origin, s)
    ensures Valid(origin, AfterRequest(s, request))
  {
    hide Careful, Replay, Executing, Checkpointing;
    match request {
      case Ask(identity, kind, ending, luck) => ExecutingKeeps(origin, s, identity, kind, ending, luck);
      case Abort =>
      case End(luck) => CheckpointingKeeps(origin, s.(closed := true), false, luck);
    }
  }

  lemma {:induction false} RequestsKeep(origin: map<Profile, Saved>, s: State, requests: seq<Request>)
    requires Valid(origin, s)
    ensures Valid(origin, AfterRequests(s, requests))
  {
    hide Valid, AfterRequest;
    if requests != [] {
      RequestsKeep(origin, s, requests[..|requests| - 1]);
      RequestKeeps(origin, AfterRequests(s, requests[..|requests| - 1]), requests[|requests| - 1]);
    }
  }

  /** Any engines one after the other, upgraded, rolled back or killed: everything that
      was ever stored was stored with care, and the history accounts for the store. */
  lemma {:induction false} EveryLifeIsCareful(lives: seq<Life>, saved: map<Profile, Saved>)
    ensures var (after, log) := AfterLives(lives, saved);
            (forall i :: Careful(saved, log, i)) && Replay(saved, log) == after
  {
    if lives != [] {
      EveryLifeIsCareful(lives[..|lives| - 1], saved);
      var (before, log) := AfterLives(lives[..|lives| - 1], saved);
      var life := lives[|lives| - 1];
      EventKeeps(saved, log, Started(life.environment));
      RequestsKeep(saved, Begun(life.environment, before, log), life.requests);
    }
  }

  // ---------- What single requests promise ----------

  predicate Same(before: map<Profile, Saved>, after: map<Profile, Saved>, p: Profile) {
    Lookup(before, p) == Lookup(after, p)
  }

  /** The active Profile is this identity's, in this Session. */
  predicate ActiveIn(s: State, identity: Identity) {
    && s.active.Some? && s.active.value.profile == Profile(identity.agent, identity.principal, s.environment.generation)
    && s.active.value.session == identity.session && s.active.value.sessionEpoch == identity.sessionEpoch
  }

  /** The active Profile after a checkpoint that keeps it. */
  function Kept(a: Active): Active {
    Active(a.profile, a.session, a.sessionEpoch, a.owner, true, false, true, false, false)
  }

  /** The event of storing what the Browser left of the active Profile. */
  function Storing(s: State, luck: Luck): Event
    requires s.active.Some?
  {
    Stored(s.active.value.profile, Lookup(s.saved, s.active.value.profile), Saved(Some(s.environment), luck.content))
  }

  /** Every step of storing the active Profile succeeds; `runs` if its Browser runs. */
  predicate StoresWell(s: State, runs: bool, luck: Luck)
    requires s.active.Some?
  {
    && (runs ==> luck.stopped) && luck.still && luck.archived && luck.write == Written
    && (s.active.value.exists_ <==> s.active.value.profile in s.saved)
  }

  /** Nothing is stored of a Profile that waits for its preflight. */
  lemma UnprovenIsNotStored(s: State, retain: bool, luck: Luck)
    requires s.active.Some? && s.active.value.Unproven()
    ensures var t := Checkpointing(s, retain, luck).0; t.saved == s.saved && t.log == s.log && t.active.None?
  {
  }

  /** A checkpoint of an active Profile that may be stored succeeds exactly if every
      step does and the store is as the engine knows it; it then holds what the Browser
      left, under the locked environment, and no other Profile changes in any case. */
  lemma CheckpointStores(s: State, retain: bool, luck: Luck)
    requires s.active.Some? && !s.active.value.Unproven()
    ensures var (t, answer) := Checkpointing(s, retain, luck);
            var a := s.active.value;
            && (answer == Done <==> (a.process ==> luck.stopped) && luck.still && luck.archived && luck.write == Written
                                    && (a.exists_ <==> a.profile in s.saved))
            && (answer == Done ==> Lookup(t.saved, a.profile) == Some(Saved(Some(s.environment), luck.content)))
            && (answer == Done ==> t.active == if retain then Some(Kept(a)) else None)
            && (answer == Done ==> t.log == s.log + [Storing(s, luck)])
            && (forall p :: p != a.profile ==> Same(s.saved, t.saved, p))
  {
  }

  /** A checkpoint that fails leaves the stored Profile as it was, or as it would have
      been written, or moved away where it is found broken; only in the Browser's work
      being broken is the active Profile given up. */
  lemma CheckpointLeaves(s: State, retain: bool, luck: Luck)
    requires s.active.Some? && !s.active.value.Unproven() && !StoresWell(s, s.active.value.process, luck)
    ensures var (t, answer) := Checkpointing(s, retain, luck);
            var a, stopped := s.active.value, s.active.value.process ==> luck.stopped;
            var broken := stopped && a.exists_ &&
                          (if luck.still then luck.archived && luck.write == Lost && a.profile in s.saved else luck.quarantined);
            var landed := stopped && luck.still && luck.archived && luck.write == Uncertain(true) && (a.exists_ <==> a.profile in s.saved);
            && Lookup(t.saved, a.profile) == (if broken then None
                                              else if landed then Some(Saved(Some(s.environment), luck.content))
                                              else Lookup(s.saved, a.profile))
            && (t.active.None? <==> stopped && !luck.still)
            && (answer == Failed(ProfileCorrupt) <==> stopped && (!luck.still || (luck.archived && luck.write == Lost)))
  {
  }

  /** A preflight succeeds on a stored Profile exactly if the Browser runs and reports
      the locked environment; a failed one never changes a stored Profile. */
  lemma PreflightProves(s: State, luck: Luck)
    requires s.active.Some? && s.active.value.exists_
    ensures var (t, answer) := Preflighting(s, luck);
            && t.saved == s.saved
            && (answer == Done <==> Runs(s, luck) && luck.ran && luck.reported == Some(s.environment))
            && (answer == Done <==> t.active.Some? && t.active.value.validated && t.log != s.log)
            && (s.active.value.upgradePending && answer != Done ==> answer == Failed(EngineUpgrade) && t.active.None?)
  {
  }

  /** Why a preflight of a stored Profile fails: an upgrade fails as such, else the Browser
      could not run, or it reported another environment and is given up. */
  lemma PreflightFails(s: State, luck: Luck)
    requires s.active.Some? && s.active.value.exists_
    ensures var (t, answer) := Preflighting(s, luck);
            var ran := (s.active.value.process || luck.spawned) && luck.ran;
            && (answer == Failed(EngineUpgrade) <==>
                  s.active.value.upgradePending && !(ran && luck.reported == Some(s.environment)))
            && (answer == Failed(Runtime) <==> !s.active.value.upgradePending && !ran)
            && (answer == Failed(EngineUnavailable) <==> !s.active.value.upgradePending && ran && luck.reported != Some(s.environment))
            && (answer in {Failed(EngineUpgrade), Failed(EngineUnavailable)} ==> t.active.None?)
            && (answer == Failed(Runtime) ==> t.active.Some? && !(t.active.value.validated && !s.active.value.validated))
  {
  }

  /** A closed engine does nothing, and an abort gives the active Profile up. */
  lemma ClosedOrAborted(s: State, identity: Identity, kind: Kind, ending: Luck, luck: Luck)
    ensures s.closed ==> Executing(s, identity, kind, ending, luck) == (s, Failed(Runtime)) && Closing(s, luck) == s
    ensures AfterRequest(s, Abort) == if s.closed then s else s.(active := None)
  {
  }

  /** Loading succeeds exactly if the store opens the Profile and it fits. */
  lemma LoadDecides(s: State, identity: Identity, luck: Luck)
    requires s.active.None?
    ensures var (t, answer) := Loading(s, identity, luck);
            var p := Profile(identity.agent, identity.principal, s.environment.generation);
            var stored := Lookup(s.saved - luck.pruned, p);
            && (answer == Done <==>
                  && luck.prepared && luck.opened_ == Opens
                  && (stored.Some? ==> luck.extracted && luck.valid && (stored.value.environment.Some? ==> luck.environmentRead)
                                       && !s.Mismatch(stored.value) && !s.Downgrade(stored.value)))
            && (answer == Done ==>
                  && t.active.Some? && t.active.value.profile == p && !t.active.value.validated
                  && (t.active.value.exists_ <==> stored.Some?)
                  && t.active.value.session == identity.session && t.active.value.sessionEpoch == identity.sessionEpoch
                  && t.active.value.owner == identity.owner && !t.active.value.process
                  && (t.active.value.adoptionPending <==> stored.Some? && stored.value.environment.None?)
                  && (t.active.value.upgradePending <==>
                        stored.Some? && stored.value.environment.Some? && Pending(s.environment, stored.value)))
            && (answer in {Done, Failed(EnvironmentMismatch), Failed(EngineDowngrade)} ==> t.saved == s.saved - luck.pruned)
  {
  }

  /** A stored Profile that can be read is refused for the first of these reasons: it is
      bound otherwise, or it was written by a newer Browser. */
  lemma LoadRefuses(s: State, identity: Identity, luck: Luck)
    requires s.active.None? && luck.prepared && luck.opened_ == Opens && luck.extracted && luck.valid && luck.environmentRead
    ensures var (t, answer) := Loading(s, identity, luck);
            var p := Profile(identity.agent, identity.principal, s.environment.generation);
            var recorded := if p in s.saved - luck.pruned then s.saved[p].environment else None;
            var bound := recorded.Some? ==> recorded.value.generation == s.environment.generation &&
                                            recorded.value.binding == s.environment.binding;
            && (answer == Failed(EnvironmentMismatch) <==> !bound)
            && (answer == Failed(EngineDowngrade) <==>
                  bound && recorded.Some? && Compare(s.environment.version, recorded.value.version) < 0)
            && (answer == Done <==> bound && (recorded.Some? ==> Compare(s.environment.version, recorded.value.version) >= 0))
  {
  }

  /** What is left in the store when a Profile does not load: all of it, unless the
      Profile was found broken and has been moved away. */
  lemma LoadLeaves(s: State, identity: Identity, luck: Luck)
    requires s.active.None?
    ensures var (t, answer) := Loading(s, identity, luck);
            var p := Profile(identity.agent, identity.principal, s.environment.generation);
            && t.saved.Keys <= s.saved.Keys
            && (forall q :: q in s.saved && q !in luck.pruned && q != p ==> q in t.saved && t.saved[q] == s.saved[q])
            && (p in s.saved && p !in luck.pruned ==>
                  (p in t.saved <==> !FoundBroken(s.saved[p], luck)))
  {
  }

  /** The store or the engine finds the Profile broken and moves it away. */
  predicate FoundBroken(stored: Saved, luck: Luck) {
    && luck.prepared
    && (luck.opened_ == Broken(true) ||
        (luck.opened_ == Opens && luck.extracted && luck.quarantined &&
         (!luck.valid || (stored.environment.Some? && !luck.environmentRead))))
  }

  /** A checkpoint that is done has left a Profile alone or stored it under the locked
      environment, and none is refused for its environment. */
  lemma CheckpointEither(s: State, retain: bool, luck: Luck, p: Profile)
    ensures var (t, answer) := Checkpointing(s, retain, luck);
            && t.environment == s.environment
            && answer in {Done, Failed(Runtime), Failed(EngineUnavailable), Failed(ProfileCorrupt)}
            && (answer == Done ==> Same(s.saved, t.saved, p) || Lookup(t.saved, p) == Some(Saved(Some(s.environment), luck.content)))
  {
  }

  lemma ActivationRefuses(s: State, identity: Identity, ending: Luck, luck: Luck)
    requires Sane(s)
    ensures var (t, answer) := Activating(s, identity, ending, luck);
            var p := Profile(identity.agent, identity.principal, s.environment.generation);
            && (answer in {Failed(EngineDowngrade), Failed(EnvironmentMismatch)} ==> Same(s.saved, t.saved, p))
            && (answer == Done ==> t.active.Some? && t.environment == s.environment)
            && (answer == Done && t.active.value.upgradePending ==> Same(s.saved, t.saved, p))
            && answer != Failed(EngineUpgrade)
  {
    hide Sane, Checkpointing, Proven;
    var p := Profile(identity.agent, identity.principal, s.environment.generation);
    CheckpointEither(s, false, ending, p);
  }

  /** Whenever a request is refused for its environment, the Profile it asked for is
      in the store exactly as before. */
  lemma RefusalKeepsProfile(s: State, identity: Identity, kind: Kind, ending: Luck, luck: Luck)
    requires Sane(s)
    ensures var (t, answer) := Executing(s, identity, kind, ending, luck);
            var p := Profile(identity.agent, identity.principal, s.environment.generation);
            && (answer == Failed(EngineUpgrade) ==> t.active.None?)
            && (answer in {Failed(EngineUpgrade), Failed(EngineDowngrade), Failed(EnvironmentMismatch)} ==> Same(s.saved, t.saved, p))
  {
    hide Sane, Checkpointing, Activating, Proven;
    ActivationRefuses(s, identity, ending, luck);
    var (t, answer) := Activating(s, identity, ending, luck);
    if answer == Done {
      var p := t.active.value.profile;
      CheckpointEither(t, kind == Checkpoint, luck, p);
      CheckpointEither(Running(t), kind == Checkpoint, luck, p);
      var a := t.active.value.(process := true, validated := true);
      CheckpointEither(t.Noted(Locked(a.profile, t.environment)).(active := Some(a)), true, luck, p);
    }
  }

  // ---------- What requests store ----------

  /** Closing the active attachment is done exactly if every step of storing its Profile
      succeeds; then the store holds what the Browser left, and it is given up. */
  lemma CloseStores(s: State, identity: Identity, ending: Luck, luck: Luck)
    requires !s.closed && ActiveIn(s, identity) && s.active.value.owner == identity.owner && !s.active.value.Unproven()
    ensures var (t, answer) := Executing(s, identity, Close, ending, luck);
            var a := s.active.value;
            && (answer == Done <==> (a.process ==> luck.ran) && StoresWell(s, a.process, luck))
            && (answer == Done ==>
                  && t.active.None? && t.log == s.log + [Storing(s, luck)]
                  && Lookup(t.saved, a.profile) == Some(Saved(Some(s.environment), luck.content)))
  {
    hide Checkpointing;
    CheckpointStores(s, false, luck);
  }

  /** A close of anything else is done and changes nothing. */
  lemma CloseElsewhere(s: State, identity: Identity, ending: Luck, luck: Luck)
    requires !s.closed && !(ActiveIn(s, identity) && s.active.value.owner == identity.owner)
    ensures Executing(s, identity, Close, ending, luck) == (s, Done)
  {
  }

  /** A checkpoint in the active Session is done exactly if the Browser runs and every
      step of storing its Profile succeeds; the Profile then stays active. */
  lemma CheckpointRequestStores(s: State, identity: Identity, ending: Luck, luck: Luck)
    requires !s.closed && ActiveIn(s, identity) && !s.active.value.Unproven()
    ensures var (t, answer) := Executing(s, identity, Checkpoint, ending, luck);
            var a := s.active.value;
            && (answer == Done <==> (a.process || luck.spawned) && luck.ran && StoresWell(s, true, luck))
            && (answer == Done ==>
                  && t.active == Some(Kept(a).(owner := identity.owner)) && t.log == s.log + [Storing(s, luck)]
                  && Lookup(t.saved, a.profile) == Some(Saved(Some(s.environment), luck.content)))
  {
    hide Checkpointing;
    CheckpointStores(Running(s.(active := Some(s.active.value.(owner := identity.owner)))), true, luck);
  }

  /** Another Session's request first stores the active Profile, and goes no further
      unless that succeeds. */
  lemma ReplacedIsStored(s: State, identity: Identity, kind: Kind, ending: Luck, luck: Luck)
    requires !s.closed && kind != Close && s.active.Some? && !ActiveIn(s, identity) && !s.active.value.Unproven()
    ensures var (t, answer) := Executing(s, identity, kind, ending, luck);
            && (StoresWell(s, s.active.value.process, ending) ==> s.log + [Storing(s, ending)] <= t.log)
            && (!StoresWell(s, s.active.value.process, ending) ==>
                  && answer.Failed? && (t.active.Some? ==> t.active.value.profile == s.active.value.profile)
                  && t.log == Checkpointing(s, false, ending).0.log)
  {
    hide Checkpointing, Loading, ExecutingActive;
    CheckpointStores(s, false, ending);
    CheckpointGivesUpOrKeeps(s, ending);
    CheckpointEnds(s, ending);
    if StoresWell(s, s.active.value.process, ending) {
      var t := Checkpointing(s, false, ending).0;
      LoadingLogs(t, identity, luck);
      if Loading(t, identity, luck).1 == Done {
        ExecutingLogs(Loading(t, identity, luck).0, kind, luck);
      }
    }
  }

  lemma CheckpointGivesUpOrKeeps(s: State, luck: Luck)
    requires s.active.Some?
    ensures var t := Checkpointing(s, false, luck).0; t.active.Some? ==> t.active.value.profile == s.active.value.profile
  {
  }

  lemma LoadingLogs(s: State, identity: Identity, luck: Luck)
    requires s.active.None?
    ensures s.log <= Loading(s, identity, luck).0.log
    ensures Loading(s, identity, luck).1 == Done ==> Loading(s, identity, luck).0.active.Some?
  {
  }

  lemma CheckpointingLogs(s: State, retain: bool, luck: Luck)
    ensures s.log <= Checkpointing(s, retain, luck).0.log
  {
  }

  lemma ExecutingLogs(s: State, kind: Kind, luck: Luck)
    requires s.active.Some?
    ensures s.log <= ExecutingActive(s, kind, luck).0.log
  {
    hide Checkpointing;
    CheckpointingLogs(s, kind == Checkpoint, luck);
    CheckpointingLogs(Running(s), kind == Checkpoint, luck);
    var a := s.active.value.(process := true, validated := true);
    var locked := s.Noted(Locked(a.profile, s.environment)).(active := Some(a));
    CheckpointingLogs(locked, true, luck);
    CheckpointStays(locked, luck);
  }

  /** Any other action is done exactly if the Browser runs it, and stores nothing. */
  lemma OtherStoresNothing(s: State, identity: Identity, ending: Luck, luck: Luck)
    requires !s.closed && ActiveIn(s, identity)
    ensures var (t, answer) := Executing(s, identity, Other, ending, luck);
            && t.saved == s.saved && t.log == s.log
            && (answer == Done <==> (s.active.value.process || luck.spawned) && luck.ran)
  {
  }

  /** The first preflight of a new Profile stores it and proves that it opens again. */
  lemma NewProfileIsStored(s: State, identity: Identity, ending: Luck, luck: Luck)
    requires !s.closed && ActiveIn(s, identity) && !s.active.value.exists_ && !s.active.value.upgradePending && !s.active.value.adoptionPending
    ensures var (t, answer) := Executing(s, identity, Preflight, ending, luck);
            var a := s.active.value;
            && (answer == Done <==>
                  && (a.process || luck.spawned) && luck.ran && luck.reported == Some(s.environment)
                  && StoresWell(s, true, luck) && luck.again)
            && (answer == Done ==>
                  && t.active == Some(Kept(a).(owner := identity.owner, process := true))
                  && t.log == s.log + [Locked(a.profile, s.environment), Storing(s, luck)]
                  && Lookup(t.saved, a.profile) == Some(Saved(Some(s.environment), luck.content)))
  {
    hide Checkpointing;
    var a := s.active.value.(owner := identity.owner, process := true, validated := true);
    var locked := s.Noted(Locked(a.profile, s.environment)).(active := Some(a));
    CheckpointStores(locked, true, luck);
    CheckpointStays(locked, luck);
  }

  /** Closing the engine stores what is active where every step succeeds. */
  lemma EndStores(s: State, luck: Luck)
    requires !s.closed && s.active.Some? && !s.active.value.Unproven()
    ensures var t := Closing(s, luck);
            t.closed && (StoresWell(s, s.active.value.process, luck) ==> t.active.None? && t.log == s.log + [Storing(s, luck)])
  {
    CheckpointStores(s.(closed := true), false, luck);
  }

  lemma ActivatingLogs(s: State, identity: Identity, ending: Luck, luck: Luck)
    ensures s.log <= Activating(s, identity, ending, luck).0.log
    ensures Activating(s, identity, ending, luck).1 == Done ==> Activating(s, identity, ending, luck).0.active.Some?
  {
    hide Checkpointing, Loading;
    CheckpointingLogs(s, false, ending);
    CheckpointEnds(s, ending);
    if Checkpointing(s, false, ending).1 == Done {
      LoadingLogs(Checkpointing(s, false, ending).0, identity, luck);
    }
  }

  lemma RequestLogs(s: State, request: Request)
    ensures s.log <= AfterRequest(s, request).log
  {
    hide Checkpointing, Activating, ExecutingActive;
    match request {
      case Ask(identity, kind, ending, luck) =>
        ActivatingLogs(s, identity, ending, luck);
        var (t, answer) := Activating(s, identity, ending, luck);
        if answer == Done {
          ExecutingLogs(t, kind, luck);
        }
      case Abort =>
      case End(luck) => CheckpointingLogs(s.(closed := true), false, luck);
    }
  }

  lemma {:induction false} RequestsLog(s: State, requests: seq<Request>, i: nat)
    requires i <= |requests|
    ensures AfterRequests(s, requests[..i]).log <= AfterRequests(s, requests).log
  {
    hide AfterRequest;
    if i == |requests| {
      assert requests[..i] == requests;
    } else {
      var n := |requests| - 1;
      RequestsLog(s, requests[..n], i);
      assert requests[..n][..i] == requests[..i];
      RequestLogs(AfterRequests(s, requests[..n]), requests[n]);
    }
  }

  lemma {:induction false} LivesLog(lives: seq<Life>, saved: map<Profile, Saved>, k: nat)
    requires k <= |lives|
    ensures AfterLives(lives[..k], saved).1 <= AfterLives(lives, saved).1
  {
    hide AfterRequests;
    if k == |lives| {
      assert lives[..k] == lives;
    } else {
      var n := |lives| - 1;
      LivesLog(lives[..n], saved, k);
      assert lives[..n][..k] == lives[..k];
      var (before, log) := AfterLives(lives[..n], saved);
      RequestsLog(Begun(lives[n].environment, before, log), lives[n].requests, 0);
      assert AfterRequests(Begun(lives[n].environment, before, log), []) == Begun(lives[n].environment, before, log) by {
        NoRequests(Begun(lives[n].environment, before, log));
      }
    }
  }

  lemma NoRequests(s: State)
    ensures AfterRequests(s, []) == s
  {
  }

  /** Where life `k` stands before its request `i`. */
  function Before(lives: seq<Life>, saved: map<Profile, Saved>, k: nat, i: nat): State
    requires k < |lives| && i <= |lives[k].requests|
  {
    var (before, log) := AfterLives(lives[..k], saved);
    AfterRequests(Begun(lives[k].environment, before, log), lives[k].requests[..i])
  }

  /** The request has to store the active Profile before it can be done: it checkpoints
      or closes it, or is another Session's. */
  predicate MustStore(s: State, request: Request) {
    && request.Ask? && !s.closed && s.active.Some? && !s.active.value.Unproven()
    && if ActiveIn(s, request.identity)
       then request.kind == Checkpoint || (request.kind == Close && s.active.value.owner == request.identity.owner)
       else request.kind != Close
  }

  /** Over any lives, every request that had to store the active Profile and was done has
      its event in the history, where the request began. */
  lemma DoneIsStored(lives: seq<Life>, saved: map<Profile, Saved>, k: nat, i: nat)
    requires k < |lives| && i < |lives[k].requests|
    requires var s, request := Before(lives, saved, k, i), lives[k].requests[i];
             MustStore(s, request) && Answering(s, request) == Some(Done)
    ensures var s, request, log := Before(lives, saved, k, i), lives[k].requests[i], AfterLives(lives, saved).1;
            |s.log| < |log| && log[|s.log|] == Storing(s, if ActiveIn(s, request.identity) then request.luck else request.ending)
  {
    hide Executing, AfterRequests;
    var life, s, request := lives[k], Before(lives, saved, k, i), lives[k].requests[i];
    var (before, log) := AfterLives(lives[..k], saved);
    var begun := Begun(life.environment, before, log);
    DoneStores(s, request);
    NextRequest(begun, life.requests, i);
    RequestsLog(begun, life.requests, i + 1);
    assert lives[..k + 1][..k] == lives[..k];
    LivesLog(lives, saved, k + 1);
    assert AfterRequests(begun, life.requests).log <= AfterLives(lives, saved).1;
    assert AfterRequest(s, request).log <= AfterLives(lives, saved).1;
  }

  lemma NextRequest(s: State, requests: seq<Request>, i: nat)
    requires i < |requests|
    ensures AfterRequests(s, requests[..i + 1]) == AfterRequest(AfterRequests(s, requests[..i]), requests[i])
  {
    assert requests[..i + 1][..i] == requests[..i];
  }

  lemma DoneStores(s: State, request: Request)
    requires MustStore(s, request) && Answering(s, request) == Some(Done)
    ensures s.log + [Storing(s, if ActiveIn(s, request.identity) then request.luck else request.ending)] <= AfterRequest(s, request).log
  {
    hide Executing, StoresWell;
    var Ask(identity, kind, ending, luck) := request;
    if !ActiveIn(s, identity) {
      ReplacedIsStored(s, identity, kind, ending, luck);
    } else if kind == Close {
      CloseStores(s, identity, ending, luck);
    } else {
      CheckpointRequestStores(s, identity, ending, luck);
    }
  }

  // ---------- The program ----------

  class Engine {
    const environment: Environment
    var saved: map<Profile, Saved>
    var active: Option<Active>
    var closed: bool
    ghost var log: seq<Event>

    constructor (environment: Environment, saved: map<Profile, Saved>, ghost log: seq<Event>)
      ensures View() == Begun(environment, saved, log)
    {
      this.environment, this.saved := environment, saved;
      active, closed, this.log := None, false, log + [Started(environment)];
    }

    ghost function View(): State
      reads this
    {
      State(environment, saved, active, closed, log)
    }

    method Put(p: Profile, after: Saved)
      modifies `saved, `log
      ensures View() == old(View()).With(p, after)
    {
      log := log + [Stored(p, Lookup(saved, p), after)];
      saved := saved[p := after];
    }

    method Take(profiles: set<Profile>)
      modifies `saved, `log
      ensures View() == old(View()).Without(profiles)
    {
      saved, log := saved - profiles, log + [Removed(profiles)];
    }

    method DiscardActive()
      modifies `active
      ensures View() == old(View()).Discarded()
    {
      active := None;
    }

    method StoreActive(luck: Luck) returns (ok: bool)
      requires active.Some?
      modifies `saved, `log
      ensures (View(), ok) == StoringActive(old(View()), luck)
    {
      var p := active.value.profile;
      ok := false;
      if active.value.exists_ != (p in saved) {
        return;
      }
      if luck.write == Written || luck.write == Uncertain(true) {
        Put(p, Saved(Some(environment), luck.content));
      } else if luck.write == Lost && active.value.exists_ {
        Take({p});
      }
      ok := luck.write == Written;
    }

    method QuarantineActive(luck: Luck)
      requires active.Some?
      modifies `saved, `active, `log
      ensures View() == QuarantiningActive(old(View()), luck)
    {
      if active.value.exists_ && luck.quarantined {
        Take({active.value.profile});
      }
      active := None;
    }

    method CheckpointActive(retain: bool, luck: Luck) returns (answer: Answer)
      modifies `saved, `active, `log
      ensures (View(), answer) == Checkpointing(old(View()), retain, luck)
    {
      hide Committing;
      if active.None? {
        return Done;
      }
      if active.value.upgradePending && !active.value.validated {
        DiscardActive();
        return if luck.stopped then Done else Failed(Runtime);
      }
      if active.value.adoptionPending && !active.value.validated {
        DiscardActive();
        return Failed(EngineUnavailable);
      }
      answer := CommitActive(retain, luck);
    }

    method CommitActive(retain: bool, luck: Luck) returns (answer: Answer)
      requires active.Some?
      modifies `saved, `active, `log
      ensures (View(), answer) == Committing(old(View()), retain, luck)
    {
      if active.value.process {
        if !luck.stopped {
          return Failed(Runtime);
        }
        active := Some(active.value.(process := false));
      }
      if !luck.still {
        QuarantineActive(luck);
        return Failed(ProfileCorrupt);
      }
      if !luck.archived {
        return Failed(Runtime);
      }
      var ok := StoreActive(luck);
      if !ok {
        return Failed(if luck.write == Lost then ProfileCorrupt else Runtime);
      }
      active := Some(active.value.(exists_ := true, upgradePending := false, validated := true, adoptionPending := false));
      if !retain {
        active := None;
      }
      return Done;
    }

    method Activate(identity: Identity, ending: Luck, luck: Luck) returns (answer: Answer)
      modifies `saved, `active, `log
      ensures (View(), answer) == Activating(old(View()), identity, ending, luck)
    {
      hide Checkpointing, Loading;
      if active.Some? && active.value.profile == Profile(identity.agent, identity.principal, environment.generation) &&
         active.value.session == identity.session && active.value.sessionEpoch == identity.sessionEpoch {
        active := Some(active.value.(owner := identity.owner));
        return Done;
      }
      answer := CheckpointActive(false, ending);
      if answer == Done {
        answer := Load(identity, luck);
      }
    }

    method Load(identity: Identity, luck: Luck) returns (answer: Answer)
      modifies `saved, `active, `log
      ensures (View(), answer) == Loading(old(View()), identity, luck)
    {
      Take(luck.pruned);
      if !luck.prepared || luck.opened_ == Unopened {
        return Failed(Runtime);
      }
      var p := Profile(identity.agent, identity.principal, environment.generation);
      if luck.opened_.Broken? {
        if luck.opened_.moved && p in saved {
          Take({p});
        }
        return Failed(ProfileCorrupt);
      }
      var upgrade, adoption := false, false;
      if p in saved {
        answer, upgrade, adoption := Compatible(p, luck);
        if answer != Done {
          return;
        }
      }
      active := Some(Active(p, identity.session, identity.sessionEpoch, identity.owner, p in saved, false, false, upgrade, adoption));
      log := log + [Activated(p)];
      return Done;
    }

    /** The saved Profile has been read. */
    method Compatible(p: Profile, luck: Luck) returns (answer: Answer, upgrade: bool, adoption: bool)
      requires p in saved
      modifies `saved, `log
      ensures var stored := old(saved)[p];
              var broken := luck.extracted && (!luck.valid || (stored.environment.Some? && !luck.environmentRead));
              && View() == (if broken && luck.quarantined then old(View()).Without({p}) else old(View()))
              && answer == (if !luck.extracted || broken then Failed(ProfileCorrupt)
                            else if View().Mismatch(stored) then Failed(EnvironmentMismatch)
                            else if View().Downgrade(stored) then Failed(EngineDowngrade)
                            else Done)
              && (answer == Done ==>
                    && (adoption <==> stored.environment.None?)
                    && (upgrade <==> stored.environment.Some? && Pending(environment, stored)))
    {
      upgrade, adoption := false, false;
      var stored := saved[p];
      if !luck.extracted {
        return Failed(ProfileCorrupt), false, false;
      }
      if !luck.valid || (stored.environment.Some? && !luck.environmentRead) {
        if luck.quarantined {
          Take({p});
        }
        return Failed(ProfileCorrupt), false, false;
      }
      if stored.environment.None? {
        return Done, false, true;
      }
      if !stored.environment.value.BindsLike(environment) {
        return Failed(EnvironmentMismatch), false, false;
      }
      var order := Compare(environment.version, stored.environment.value.version);
      if order < 0 {
        return Failed(EngineDowngrade), false, false;
      }
      return Done, order > 0, false;
    }

    method EnsureProcess(luck: Luck) returns (ok: bool)
      requires active.Some?
      modifies `active
      ensures ok == Runs(old(View()), luck) && View() == if ok then Running(old(View())) else old(View())
    {
      ok := active.value.process || luck.spawned;
      if ok {
        active := Some(active.value.(process := true));
      }
    }

    method ExecutePreflight(luck: Luck) returns (answer: Answer)
      requires active.Some?
      modifies `saved, `active, `log
      ensures (View(), answer) == Preflighting(old(View()), luck)
    {
      hide Checkpointing;
      var upgrade := active.value.upgradePending;
      var ok := EnsureProcess(luck);
      if !ok || !luck.ran {
        if upgrade {
          DiscardActive();
          return Failed(EngineUpgrade);
        }
        return Failed(Runtime);
      }
      if luck.reported != Some(environment) {
        DiscardActive();
        return Failed(if upgrade then EngineUpgrade else EngineUnavailable);
      }
      active, log := Some(active.value.(validated := true)), log + [Locked(active.value.profile, environment)];
      if active.value.exists_ {
        return Done;
      }
      ghost var t := View();
      answer := CheckpointActive(true, luck);
      CheckpointStays(t, luck);
      if answer == Done {
        if luck.again {
          active := Some(active.value.(process := true));
        } else {
          answer := Failed(Runtime);
        }
      }
    }

    method ExecuteActive(kind: Kind, luck: Luck) returns (answer: Answer)
      requires active.Some?
      modifies `saved, `active, `log
      ensures (View(), answer) == ExecutingActive(old(View()), kind, luck)
    {
      hide Checkpointing, Preflighting;
      if kind == Preflight {
        answer := ExecutePreflight(luck);
        return;
      }
      if kind != Close {
        var ok := EnsureProcess(luck);
        if !ok {
          return Failed(Runtime);
        }
      }
      if active.value.process && !luck.ran {
        return Failed(Runtime);
      }
      if kind == Other {
        return Done;
      }
      answer := CheckpointActive(kind == Checkpoint, luck);
    }

    method Execute(identity: Identity, kind: Kind, ending: Luck, luck: Luck) returns (answer: Answer)
      modifies `saved, `active, `log
      ensures (View(), answer) == Executing(old(View()), identity, kind, ending, luck)
    {
      hide ExecutingActive, Checkpointing;
      if closed {
        return Failed(Runtime);
      }
      if kind == Close && (active.None? || !SameAttachment(active.value, identity)) {
        return Done;
      }
      CheckpointEnds(View(), ending);
      answer := Activate(identity, ending, luck);
      if answer == Done {
        answer := ExecuteActive(kind, luck);
      }
    }

    predicate SameAttachment(a: Active, identity: Identity) {
      && a.profile == Profile(identity.agent, identity.principal, environment.generation) && a.session == identity.session
      && a.sessionEpoch == identity.sessionEpoch && a.owner == identity.owner
    }

    method CloseEngine(luck: Luck)
      modifies this
      ensures View() == Closing(old(View()), luck)
    {
      if !closed {
        closed := true;
        var _ := CheckpointActive(false, luck);
      }
    }

    method Handle(request: Request) returns (answer: Option<Answer>)
      modifies this
      ensures View() == AfterRequest(old(View()), request) && answer == Answering(old(View()), request)
    {
      hide Executing;
      answer := None;
      match request {
        case Ask(identity, kind, ending, luck) =>
          var given := Execute(identity, kind, ending, luck);
          answer := Some(given);
        case Abort =>
          if !closed {
            DiscardActive();
          }
        case End(luck) => CloseEngine(luck);
      }
    }
  }

  // ---------- Whole runs ----------

  /** One engine's life on a store: it leads where its requests lead, and each is
      answered as the ones before it demand. */
  method RunLife(life: Life, saved: map<Profile, Saved>, ghost log: seq<Event>)
    returns (after: map<Profile, Saved>, answers: seq<Option<Answer>>, ghost longer: seq<Event>)
    ensures after == AfterRequests(Begun(life.environment, saved, log), life.requests).saved
    ensures longer == AfterRequests(Begun(life.environment, saved, log), life.requests).log
    ensures Answered(Begun(life.environment, saved, log), life.requests, answers)
  {
    hide AfterRequest, Answering;
    var engine := new Engine(life.environment, saved, log);
    ghost var begun := engine.View();
    answers := [];
    var i := 0;
    while i < |life.requests|
      invariant 0 <= i <= |life.requests| && fresh(engine) && engine.View() == AfterRequests(begun, life.requests[..i])
      invariant Answered(begun, life.requests[..i], answers)
    {
      assert life.requests[..i + 1][..i] == life.requests[..i];
      var answer := engine.Handle(life.requests[i]);
      AnsweredOneMore(begun, life.requests[..i], answers, life.requests[i]);
      assert life.requests[..i] + [life.requests[i]] == life.requests[..i + 1];
      answers, i := answers + [answer], i + 1;
    }
    assert life.requests[..|life.requests|] == life.requests;
    after, longer := engine.saved, engine.log;
  }

  /** Each answer is the one that the requests before it demand. */
  predicate Answered(s: State, requests: seq<Request>, answers: seq<Option<Answer>>) {
    |answers| == |requests| &&
    forall i :: 0 <= i < |requests| ==> answers[i] == Answering(AfterRequests(s, requests[..i]), requests[i])
  }

  lemma AnsweredOneMore(s: State, requests: seq<Request>, answers: seq<Option<Answer>>, request: Request)
    requires Answered(s, requests, answers)
    ensures Answered(s, requests + [request], answers + [Answering(AfterRequests(s, requests), request)])
  {
    hide AfterRequests, Answering;
    var longer := requests + [request];
    forall i | 0 <= i < |longer|
      ensures (answers + [Answering(AfterRequests(s, requests), request)])[i] == Answering(AfterRequests(s, longer[..i]), longer[i])
    {
      assert longer[..i] == requests[..i];
      assert requests[..|requests|] == requests;
    }
  }

  /** Any engines one after the other: the store holds what their lives leave in it,
      the history accounts for every change, everything was stored with care, a Profile
      that stays in the store is never taken back to an older Browser, and whatever had
      to be stored for an answer to be Done has its event. */
  method RunLives(lives: seq<Life>, saved: map<Profile, Saved>)
    returns (after: map<Profile, Saved>, answers: seq<seq<Option<Answer>>>, ghost log: seq<Event>)
    ensures after == AfterLives(lives, saved).0
    ensures log == AfterLives(lives, saved).1
    ensures |answers| == |lives| && forall k :: 0 <= k < |lives| ==> Answered(Before(lives, saved, k, 0), lives[k].requests, answers[k])
    ensures (forall i :: Careful(saved, log, i)) && Replay(saved, log) == after
    ensures forall p :: (forall k :: 0 <= k <= |log| ==> p in Replay(saved, log[..k])) ==>
              p in saved && p in after && NotOlder(saved[p], after[p])
    ensures forall k, i :: StoredIfDone(lives, saved, log, answers, k, i)
  {
    hide Answered, AfterRequests;
    after, answers, log := saved, [], [];
    var n := 0;
    while n < |lives|
      invariant 0 <= n <= |lives| && after == AfterLives(lives[..n], saved).0 && log == AfterLives(lives[..n], saved).1
      invariant |answers| == n && forall k :: 0 <= k < n ==> Answered(Before(lives, saved, k, 0), lives[k].requests, answers[k])
    {
      var given;
      NoRequests(Begun(lives[n].environment, after, log));
      after, given, log := RunLife(lives[n], after, log);
      assert lives[..n + 1][..n] == lives[..n] && lives[n].requests[..0] == [];
      answers, n := answers + [given], n + 1;
    }
    assert lives[..|lives|] == lives;
    EveryLifeIsCareful(lives, saved);
    StaysNotOlder(saved, after, log);
    forall k: nat, i: nat
      ensures StoredIfDone(lives, saved, log, answers, k, i)
    {
      AnswersStore(lives, saved, log, answers, k, i);
    }
  }

  /** The answer to request `i` of life `k`, if it is that it is done, has its event. */
  ghost predicate StoredIfDone(lives: seq<Life>, saved: map<Profile, Saved>, log: seq<Event>, answers: seq<seq<Option<Answer>>>,
                               k: nat, i: nat)
  {
    k < |lives| && k < |answers| && i < |lives[k].requests| && i < |answers[k]| && answers[k][i] == Some(Done) &&
    MustStore(Before(lives, saved, k, i), lives[k].requests[i]) ==>
      var s, request := Before(lives, saved, k, i), lives[k].requests[i];
      |s.log| < |log| && log[|s.log|] == Storing(s, if ActiveIn(s, request.identity) then request.luck else request.ending)
  }

  lemma AnswersStore(lives: seq<Life>, saved: map<Profile, Saved>, log: seq<Event>, answers: seq<seq<Option<Answer>>>, k: nat, i: nat)
    requires log == AfterLives(lives, saved).1
    requires |answers| == |lives| && forall j :: 0 <= j < |lives| ==> Answered(Before(lives, saved, j, 0), lives[j].requests, answers[j])
    ensures StoredIfDone(lives, saved, log, answers, k, i)
  {
    hide Answering, AfterRequests, MustStore;
    if k < |lives| && i < |lives[k].requests| && i < |answers[k]| && answers[k][i] == Some(Done) &&
       MustStore(Before(lives, saved, k, i), lives[k].requests[i]) {
      NoRequests(Begun(lives[k].environment, AfterLives(lives[..k], saved).0, AfterLives(lives[..k], saved).1));
      assert lives[k].requests[..0] == [];
      DoneIsStored(lives, saved, k, i);
    }
  }

  lemma StaysNotOlder(saved: map<Profile, Saved>, after: map<Profile, Saved>, log: seq<Event>)
    requires (forall i :: Careful(saved, log, i)) && Replay(saved, log) == after
    ensures forall p :: (forall k :: 0 <= k <= |log| ==> p in Replay(saved, log[..k])) ==>
              p in saved && p in after && NotOlder(saved[p], after[p])
  {
    forall p | forall k :: 0 <= k <= |log| ==> p in Replay(saved, log[..k])
      ensures p in saved && p in after && NotOlder(saved[p], after[p])
    {
      assert log[..0] == [] && log[..|log|] == log;
      assert p in Replay(saved, log[..0]) && p in Replay(saved, log[..|log|]);
      NeverGoesBack(saved, log, 0, |log|, p);
    }
  }
}

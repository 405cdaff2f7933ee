/** The single Ops Observer lease of a Runtime, shared by the connections of any
    number of listeners that run step by step in any order. */
module OpsObserver {
  import opened Basics

  const MAX_REQUESTS: nat := 4096

  datatype Request = Request(id: nat, lease: nat, run: nat, expiresAt: int)

  datatype Lease = Lease(id: nat, run: nat, expiresAt: int, sequence: nat, seen: set<nat>)

  // ---------- The lease manager ----------

  class LeaseManager {
    var active: Option<Lease>

    constructor ()
      ensures active == None
    {
      active := None;
    }

    method Admit(request: Request) returns (ok: bool)
      modifies this
      ensures ok <==> old(active).None?
      ensures active == if ok then Some(Lease(request.lease, request.run, request.expiresAt, 0, {})) else old(active)
    {
      ok := active.None?;
      if ok {
        active := Some(Lease(request.lease, request.run, request.expiresAt, 0, {}));
      }
    }

    predicate Holds(lease: nat)
      reads this
    {
      active.Some? && active.value.id == lease
    }

    predicate Validates(request: Request, now: int)
      reads this
    {
      Validated(active, request, now)
    }

    method AdmitRequest(lease: nat, request: nat) returns (ok: bool)
      modifies this
      ensures ok <==> old(Holds(lease)) && request !in old(active).value.seen && |old(active).value.seen| < MAX_REQUESTS
      ensures active == if ok then Some(old(active).value.(seen := old(active).value.seen + {request})) else old(active)
    {
      if !Holds(lease) || request in active.value.seen || |active.value.seen| >= MAX_REQUESTS {
        return false;
      }
      active := Some(active.value.(seen := active.value.seen + {request}));
      return true;
    }

    method NextSequence(lease: nat) returns (sequence: Option<nat>)
      modifies this
      ensures sequence == if old(Holds(lease)) then Some(old(active).value.sequence + 1) else None
      ensures active == if old(Holds(lease)) then Some(old(active).value.(sequence := sequence.value)) else old(active)
    {
      if !Holds(lease) {
        return None;
      }
      active := Some(active.value.(sequence := active.value.sequence + 1));
      return Some(active.value.sequence);
    }

    method Release(lease: nat)
      modifies this
      ensures active == if old(Holds(lease)) then None else old(active)
    {
      if Holds(lease) {
        active := None;
      }
    }
  }

  // ---------- Connections ----------

  datatype Stage = Reading
                 | Claiming(request: Request)     // asks for the lease
                 | Checking(request: Request)     // already has one
                 | Registering(request: Request)
                 | Observing(request: Request)
                 | Numbering(request: Request, valid: bool)
                 | Ending

  datatype Connection = Connection(stage: Stage, admitted: Option<nat>)

  datatype Arrival = Unacceptable | Probe | Observe(request: Request, shortLived: bool) | Gone

  datatype Result = Error | Busy | Observation(valid: bool)

  /** What one lease has done: requests admitted, sequences allotted, sequences
      delivered, and observations that failed validation. */
  datatype Record = Record(requests: seq<nat>, allotted: seq<nat>, delivered: seq<nat>, rejected: nat)

  const NOTHING := Record([], [], [], 0)

  predicate NoRepeats(s: seq<nat>) {
    forall i, j :: 0 <= i < j < |s| ==> s[i] != s[j]
  }

  predicate Increasing(s: seq<nat>) {
    forall i, j :: 0 <= i < j < |s| ==> s[i] < s[j]
  }

  /** The record of a lease in use. */
  ghost predicate Recorded(lease: Lease, record: Record) {
    && (forall r :: r in lease.seen <==> r in record.requests)
    && NoRepeats(record.requests) && |record.requests| == |lease.seen| <= MAX_REQUESTS
    && |record.allotted| == lease.sequence && (forall i :: 0 <= i < |record.allotted| ==> record.allotted[i] == i + 1)
    && Increasing(record.delivered) && (forall d :: d in record.delivered ==> d in record.allotted)
    && |record.delivered| + record.rejected == |record.allotted|
    && (record.rejected == 0 ==> record.delivered == record.allotted)
  }

  /** A connection that was admitted is the one holder of the manager's lease. */
  ghost predicate Seated(connections: map<nat, Connection>, holder: Option<nat>, active: Option<Lease>, c: nat) {
    && (c in connections && connections[c].admitted.Some? ==>
          holder == Some(c) && active.Some? && active.value.id == connections[c].admitted.value)
    && (c in connections && connections[c].stage.Claiming? ==> connections[c].admitted.None?)
    && (c in connections && (connections[c].stage.Registering? || connections[c].stage.Observing? || connections[c].stage.Numbering?) ==>
          connections[c].admitted == Some(connections[c].stage.request.lease))
  }

  // ---------- What the steps do ----------

  /** The lease manager, the connections, which of them holds the lease, and what its
      lease has done. */
  datatype State = State(active: Option<Lease>, connections: map<nat, Connection>, holder: Option<nat>, record: Record)
  {
    predicate Has(c: nat) { c in connections }

    function Stage(c: nat): Stage
      requires Has(c)
    {
      connections[c].stage
    }

    function Moved(c: nat, stage: Stage): State
      requires Has(c)
    {
      this.(connections := connections[c := Connection(stage, connections[c].admitted)])
    }
  }

  const IDLE := State(None, map[], None, NOTHING)

  predicate HoldsLease(active: Option<Lease>, lease: nat) { active.Some? && active.value.id == lease }

  /** Where a line leads: the first observation asks for the lease, later ones are
      checked against it, anything else ends the connection. */
  function LineLeads(connection: Connection, arrival: Arrival): Stage {
    match arrival
    case Observe(request, shortLived) =>
      if connection.admitted.Some? then Checking(request) else if shortLived then Ending else Claiming(request)
    case Probe => Reading
    case _ => Ending
  }

  function Claimed(s: State, c: nat, listening: bool): State
    requires s.Has(c) && s.Stage(c).Claiming?
  {
    var request := s.Stage(c).request;
    if listening && s.active.None? then
      State(Some(Lease(request.lease, request.run, request.expiresAt, 0, {})),
            s.connections[c := Connection(Registering(request), Some(request.lease))], Some(c), NOTHING)
    else s.Moved(c, Ending)
  }

  /** The request is for the lease as it was admitted, and it has not expired. */
  predicate Validated(active: Option<Lease>, request: Request, now: int) {
    && HoldsLease(active, request.lease) && active.value.run == request.run && active.value.expiresAt == request.expiresAt
    && now < active.value.expiresAt
  }

  predicate Admissible(active: Option<Lease>, request: Request) {
    HoldsLease(active, request.lease) && request.id !in active.value.seen && |active.value.seen| < MAX_REQUESTS
  }

  function Registered(s: State, c: nat): State
    requires s.Has(c) && s.Stage(c).Registering?
  {
    var request := s.Stage(c).request;
    if Admissible(s.active, request) then
      s.Moved(c, Observing(request)).(active := Some(s.active.value.(seen := s.active.value.seen + {request.id})),
                                      record := s.record.(requests := s.record.requests + [request.id]))
    else s.Moved(c, Ending)
  }

  /** The next number is taken, and delivered if the observation validates. */
  function NextRecord(record: Record, n: nat, valid: bool): Record {
    Record(record.requests, record.allotted + [n], if valid then record.delivered + [n] else record.delivered,
           if valid then record.rejected else record.rejected + 1)
  }

  function Numbered(s: State, c: nat): State
    requires s.Has(c) && s.Stage(c).Numbering?
  {
    if !HoldsLease(s.active, s.Stage(c).request.lease) then s.Moved(c, Reading)
    else
      var n := s.active.value.sequence + 1;
      s.Moved(c, Reading).(active := Some(s.active.value.(sequence := n)), record := NextRecord(s.record, n, s.Stage(c).valid))
  }

  function Ended(s: State, c: nat): State
    requires s.Has(c)
  {
    var freed := s.connections[c].admitted.Some?;
    s.(connections := s.connections - {c}, holder := if freed then None else s.holder,
       active := if freed && HoldsLease(s.active, s.connections[c].admitted.value) then None else s.active)
  }

  datatype Step = AcceptStep | ArriveStep(arrival: Arrival) | ClaimStep(listening: bool) | CheckStep(now: int) | RegisterStep
                | ObservedStep(result: Result) | NumberStep | EndStep

  /** The step is taken if the connection is there. */
  function After(s: State, c: nat, step: Step): State {
    if !s.Has(c) then if step.AcceptStep? then s.(connections := s.connections[c := Connection(Reading, None)]) else s
    else
      var stage := s.Stage(c);
      match step
      case AcceptStep => s
      case ArriveStep(arrival) => if stage.Reading? then s.Moved(c, LineLeads(s.connections[c], arrival)) else s
      case ClaimStep(listening) => if stage.Claiming? then Claimed(s, c, listening) else s
      case CheckStep(now) =>
        if stage.Checking?
        then s.Moved(c, if s.connections[c].admitted.Some? && Validated(s.active, stage.request, now)
                        then Registering(stage.request) else Ending)
        else s
      case RegisterStep => if stage.Registering? then Registered(s, c) else s
      case ObservedStep(result) =>
        if stage.Observing?
        then s.Moved(c, if result.Observation? then Numbering(stage.request, result.valid) else Reading)
        else s
      case NumberStep => if stage.Numbering? then Numbered(s, c) else s
      case EndStep => if stage.Ending? then Ended(s, c) else s
  }

  function Reached(steps: seq<(nat, Step)>): State {
    if steps == [] then IDLE
    else
      var n := |steps| - 1;
      After(Reached(steps[..n]), steps[n].0, steps[n].1)
  }

  // ---------- What a step promises ----------

  /** The first observation of a lease that lasts asks for it, later ones are checked, a
      probe goes on reading, and everything else ends the connection. */
  lemma LineLeadsTo(connection: Connection, arrival: Arrival)
    ensures var stage := LineLeads(connection, arrival);
            && (stage.Claiming? <==> arrival.Observe? && connection.admitted.None? && !arrival.shortLived)
            && (stage.Checking? <==> arrival.Observe? && connection.admitted.Some?)
            && (stage.Reading? <==> arrival.Probe?)
            && (stage.Ending? <==> arrival in {Unacceptable, Gone} || (arrival.Observe? && connection.admitted.None? && arrival.shortLived))
            && (stage.Claiming? || stage.Checking? ==> stage.request == arrival.request)
  {
  }

  /** A later request passes exactly if it names the lease, the Run and the expiry that
      were admitted, before that expiry; otherwise the connection ends. */
  lemma CheckPasses(s: State, c: nat, now: int)
    requires s.Has(c) && s.Stage(c).Checking?
    ensures var t, request := After(s, c, CheckStep(now)), s.Stage(c).request;
            && t == s.(connections := t.connections) && t.Has(c) && t.connections == s.connections[c := t.connections[c]]
            && t.connections[c].admitted == s.connections[c].admitted
            && t.Stage(c) == (if s.connections[c].admitted.Some? && s.active.Some? && s.active.value.id == request.lease &&
                                 s.active.value.run == request.run && s.active.value.expiresAt == request.expiresAt && now < request.expiresAt
                              then Registering(request) else Ending)
  {
  }

  /** An error and a busy engine leave the connection reading; an observation is numbered. */
  lemma ObservedLeads(s: State, c: nat, result: Result)
    requires s.Has(c) && s.Stage(c).Observing?
    ensures var t := After(s, c, ObservedStep(result));
            && t == s.(connections := t.connections) && t.Has(c) && t.connections == s.connections[c := t.connections[c]]
            && t.connections[c].admitted == s.connections[c].admitted
            && t.Stage(c) == if result.Observation? then Numbering(s.Stage(c).request, result.valid) else Reading
  {
  }

  /** What a connection that observes first and alone does. */
  function FirstObservation(c: nat, request: Request): seq<(nat, Step)> {
    [(c, AcceptStep)] + [(c, ArriveStep(Observe(request, false)))] + [(c, ClaimStep(true))] + [(c, RegisterStep)]
    + [(c, ObservedStep(Observation(true)))] + [(c, NumberStep)]
  }

  function AfterAll(s: State, steps: seq<(nat, Step)>): State {
    if steps == [] then s
    else
      var n := |steps| - 1;
      After(AfterAll(s, steps[..n]), steps[n].0, steps[n].1)
  }

  lemma OneMore(s: State, steps: seq<(nat, Step)>, c: nat, step: Step)
    ensures AfterAll(s, steps + [(c, step)]) == After(AfterAll(s, steps), c, step)
  {
    assert (steps + [(c, step)])[..|steps|] == steps;
  }

  lemma NoSteps(s: State)
    ensures AfterAll(s, []) == s
  {
  }

  /** Whoever comes while the lease is free gets it, and its first valid observation is
      delivered as number one. */
  lemma FirstIsServed(s: State, c: nat, request: Request)
    requires s.active.None? && !s.Has(c)
    ensures var t := AfterAll(s, FirstObservation(c, request));
            && t.Has(c) && t.connections[c] == Connection(Reading, Some(request.lease)) && t.holder == Some(c)
            && t.active == Some(Lease(request.lease, request.run, request.expiresAt, 1, {request.id}))
            && t.record == Record([request.id], [1], [1], 0)
            && forall d :: d != c ==> (d in t.connections <==> d in s.connections) && (d in s.connections ==> t.connections[d] == s.connections[d])
  {
    hide AfterAll;
    NoSteps(s);
    OneMore(s, [], c, AcceptStep);
    assert [] + [(c, AcceptStep)] == [(c, AcceptStep)];
    OneMore(s, FirstObservation(c, request)[..1], c, ArriveStep(Observe(request, false)));
    OneMore(s, FirstObservation(c, request)[..2], c, ClaimStep(true));
    OneMore(s, FirstObservation(c, request)[..3], c, RegisterStep);
    OneMore(s, FirstObservation(c, request)[..4], c, ObservedStep(Observation(true)));
    OneMore(s, FirstObservation(c, request)[..5], c, NumberStep);
    FirstPrefixes(c, request);
    assert {} + {request.id} == {request.id} && [] + [request.id] == [request.id] && [] + [1] == [1];
  }

  lemma FirstPrefixes(c: nat, request: Request)
    ensures var steps := FirstObservation(c, request);
            && |steps| == 6 && steps[..1] == [(c, AcceptStep)]
            && steps[..2] == steps[..1] + [(c, ArriveStep(Observe(request, false)))]
            && steps[..3] == steps[..2] + [(c, ClaimStep(true))] && steps[..4] == steps[..3] + [(c, RegisterStep)]
            && steps[..5] == steps[..4] + [(c, ObservedStep(Observation(true)))] && steps == steps[..5] + [(c, NumberStep)]
  {
  }

  /** Whoever asks while the lease is taken is turned away, and nothing else changes. */
  lemma OthersAreTurnedAway(s: State, c: nat, listening: bool)
    requires s.active.Some? && s.Has(c) && s.Stage(c).Claiming? && s.connections[c].admitted.None?
    ensures After(s, c, ClaimStep(listening)) == s.(connections := s.connections[c := Connection(Ending, None)])
  {
  }

  /** The end of the holder frees the lease, the end of another changes nothing else. */
  lemma EndFrees(s: State, c: nat)
    requires Seated(s.connections, s.holder, s.active, c) && s.Has(c) && s.Stage(c).Ending?
    ensures var t := After(s, c, EndStep);
            && !t.Has(c) && t.connections == s.connections - {c} && t.record == s.record
            && (s.connections[c].admitted.Some? ==> t.active.None? && t.holder.None?)
            && (s.connections[c].admitted.None? ==> t.active == s.active && t.holder == s.holder)
  {
  }

  // ---------- The program ----------

  class Runtime {
    const manager: LeaseManager
    var connections: map<nat, Connection>
    ghost var holder: Option<nat>
    ghost var record: Record

    constructor ()
      ensures Valid() && View() == IDLE && fresh(manager)
    {
      manager := new LeaseManager();
      connections, holder, record := map[], None, NOTHING;
    }

    ghost predicate Valid()
      reads this, manager
    {
      && (forall c :: Seated(connections, holder, manager.active, c))
      && (holder.Some? <==> manager.active.Some?)
      && (holder.Some? ==> holder.value in connections && connections[holder.value].admitted.Some?)
      && (manager.active.Some? ==> Recorded(manager.active.value, record))
    }

    ghost function View(): State
      reads this, manager
    {
      State(manager.active, connections, holder, record)
    }

    /** Moves one connection on without touching the lease. */
    method Move(c: nat, stage: Stage)
      requires Valid() && c in connections
      requires stage.Claiming? ==> connections[c].admitted.None?
      requires stage.Registering? || stage.Observing? || stage.Numbering? ==> connections[c].admitted == Some(stage.request.lease)
      modifies `connections
      ensures Valid() && View() == old(View()).Moved(c, stage)
    {
      hide Recorded;
      ghost var before := connections;
      connections := connections[c := Connection(stage, connections[c].admitted)];
      forall d
        ensures Seated(connections, holder, manager.active, d)
      {
        assert Seated(before, holder, manager.active, d);
      }
    }

    method Accept(c: nat)
      requires Valid() && c !in connections
      modifies `connections
      ensures Valid() && View() == After(old(View()), c, AcceptStep)
    {
      hide Recorded;
      ghost var before := connections;
      connections := connections[c := Connection(Reading, None)];
      forall d
        ensures Seated(connections, holder, manager.active, d)
      {
        assert Seated(before, holder, manager.active, d);
      }
    }

    /** A line is read. A probe is answered at once and changes nothing. */
    method Arrive(c: nat, arrival: Arrival)
      requires Valid() && c in connections && connections[c].stage.Reading?
      modifies `connections
      ensures Valid() && View() == After(old(View()), c, ArriveStep(arrival))
      ensures arrival.Probe? ==> connections == old(connections)
    {
      match arrival {
        case Probe =>
        case Unacceptable => Move(c, Ending);
        case Gone => Move(c, Ending);
        case Observe(request, shortLived) =>
          if connections[c].admitted.Some? {
            Move(c, Checking(request));
          } else if shortLived {
            Move(c, Ending);
          } else {
            Move(c, Claiming(request));
          }
      }
    }

    /** Asks for the lease, unless its listener has closed: exactly one connection at
        a time gets it. */
    method Claim(c: nat, listening: bool)
      requires Valid() && c in connections && connections[c].stage.Claiming?
      modifies `connections, `holder, `record, manager
      ensures Valid() && View() == Claimed(old(View()), c, listening)
      ensures holder == Some(c) <==> listening && old(manager.active.None?)
      ensures old(manager.active.Some?) ==> manager.active == old(manager.active) && record == old(record)
    {
      hide Recorded;
      var request := connections[c].stage.request;
      assert Seated(connections, holder, manager.active, c);
      if !listening {
        Move(c, Ending);
        return;
      }
      var ok := manager.Admit(request);
      if !ok {
        Move(c, Ending);
        return;
      }
      NewRecord(request);
      ghost var before := connections;
      connections := connections[c := Connection(Registering(request), Some(request.lease))];
      holder, record := Some(c), NOTHING;
      forall d
        ensures Seated(connections, holder, manager.active, d)
      {
        assert Seated(before, None, None, d);
      }
    }

    lemma NewRecord(request: Request)
      ensures Recorded(Lease(request.lease, request.run, request.expiresAt, 0, {}), NOTHING)
    {
    }

    /** Later requests must be for the lease that this connection was admitted with. */
    method Check(c: nat, now: int)
      requires Valid() && c in connections && connections[c].stage.Checking?
      modifies `connections
      ensures Valid() && View() == After(old(View()), c, CheckStep(now))
    {
      var request := connections[c].stage.request;
      assert Seated(connections, holder, manager.active, c);
      if connections[c].admitted.Some? && manager.Validates(request, now) {
        Move(c, Registering(request));
      } else {
        Move(c, Ending);
      }
    }

    /** A request is admitted unless it is a repetition or one too many: the lease
        itself cannot have been lost. */
    method Register(c: nat)
      requires Valid() && c in connections && connections[c].stage.Registering?
      modifies `connections, `record, manager
      ensures Valid() && View() == Registered(old(View()), c)
      ensures old(manager.active.Some?) && manager.active.Some? && c in connections
      ensures connections[c].stage.Observing? <==>
                old(connections)[c].stage.request.id !in old(record).requests && |old(record).requests| < MAX_REQUESTS
      ensures record == if connections[c].stage.Observing?
                        then old(record).(requests := old(record).requests + [old(connections)[c].stage.request.id])
                        else old(record)
    {
      var request := connections[c].stage.request;
      assert Seated(connections, holder, manager.active, c);
      ghost var lease := manager.active.value;
      var ok := manager.AdmitRequest(request.lease, request.id);
      if ok {
        record := record.(requests := record.requests + [request.id]);
      }
      Reseat(lease);
      Move(c, if ok then Observing(request) else Ending);
    }

    /** The lease has changed only in what it has recorded. */
    lemma Reseat(lease: Lease)
      requires manager.active.Some? && manager.active.value.id == lease.id
      requires forall c :: Seated(connections, holder, Some(lease), c)
      ensures forall c :: Seated(connections, holder, manager.active, c)
    {
      forall c: nat
        ensures Seated(connections, holder, manager.active, c)
      {
        assert Seated(connections, holder, Some(lease), c);
      }
    }

    /** The engine answers; only an observation goes on. */
    method Observed(c: nat, result: Result)
      requires Valid() && c in connections && connections[c].stage.Observing?
      modifies `connections
      ensures Valid() && View() == After(old(View()), c, ObservedStep(result))
    {
      assert Seated(connections, holder, manager.active, c);
      match result {
        case Error => Move(c, Reading);
        case Busy => Move(c, Reading);
        case Observation(valid) => Move(c, Numbering(connections[c].stage.request, valid));
      }
    }

    /** The observation gets the next number, and is delivered if it validates. */
    method Number(c: nat) returns (delivered: Option<nat>)
      requires Valid() && c in connections && connections[c].stage.Numbering?
      modifies `connections, `record, manager
      ensures Valid() && View() == Numbered(old(View()), c)
      ensures delivered == if old(connections)[c].stage.valid then Some(|old(record).allotted| + 1) else None
      ensures record.allotted == old(record).allotted + [|old(record).allotted| + 1]
      ensures record.delivered == if delivered.Some? then old(record).delivered + [delivered.value] else old(record).delivered
    {
      var stage := connections[c].stage;
      assert Seated(connections, holder, manager.active, c);
      ghost var lease := manager.active.value;
      var sequence := manager.NextSequence(stage.request.lease);
      delivered := if stage.valid then sequence else None;
      ghost var next := NextRecord(record, sequence.value, stage.valid);
      NumberRecorded(lease, record, next, stage.valid);
      record := next;
      Reseat(lease);
      Move(c, Reading);
    }

    lemma NumberRecorded(lease: Lease, before: Record, after: Record, valid: bool)
      requires Recorded(lease, before)
      requires after == NextRecord(before, lease.sequence + 1, valid)
      ensures Recorded(lease.(sequence := lease.sequence + 1), after)
    {
      var n := lease.sequence + 1;
      forall d | d in before.delivered
        ensures d < n
      {
        assert d in before.allotted;
      }
      assert after.allotted[|before.allotted|] == n;
      assert forall i :: 0 <= i < |before.delivered| ==> before.delivered[i] in before.delivered;
      forall d | d in after.delivered
        ensures d in after.allotted
      {
        assert d in before.delivered ==> d in before.allotted;
      }
    }

    /** The end of a connection frees its own lease and no other. */
    method End(c: nat)
      requires Valid() && c in connections && connections[c].stage.Ending?
      modifies `connections, `holder, manager
      ensures Valid() && View() == Ended(old(View()), c)
      ensures manager.active == if old(connections[c].admitted.Some?) then None else old(manager.active)
    {
      hide Recorded;
      assert Seated(connections, holder, manager.active, c);
      ghost var before, lease := connections, manager.active;
      if connections[c].admitted.Some? {
        manager.Release(connections[c].admitted.value);
        holder := None;
      }
      connections := connections - {c};
      forall d
        ensures Seated(connections, holder, manager.active, d)
      {
        assert Seated(before, old(holder), lease, d);
      }
    }
  }

  /** The manager is occupied exactly when one connection, and only one, holds it. */
  lemma OneObserver(connections: map<nat, Connection>, holder: Option<nat>, active: Option<Lease>, c: nat, d: nat)
    requires (forall e :: Seated(connections, holder, active, e)) && c in connections && d in connections
    requires connections[c].admitted.Some? && connections[d].admitted.Some?
    ensures c == d && active.Some? && active.value.id == connections[c].admitted.value
  {
    assert Seated(connections, holder, active, c) && Seated(connections, holder, active, d);
  }

  // ---------- Whole runs ----------

  /** Any interleaving of the connections' steps leads the Runtime where they lead one
      by one, with at most one observer and every lease's record in order. */
  method Run(steps: seq<(nat, Step)>) returns (runtime: Runtime)
    ensures fresh(runtime) && runtime.Valid() && runtime.View() == Reached(steps)
    ensures runtime.manager.active.Some? ==> Recorded(runtime.manager.active.value, runtime.record)
  {
    runtime := new Runtime();
    var i := 0;
    while i < |steps|
      invariant 0 <= i <= |steps| && fresh(runtime) && fresh(runtime.manager) && runtime.Valid()
      invariant runtime.View() == Reached(steps[..i])
    {
      Take(runtime, steps[i].0, steps[i].1);
      assert steps[..i + 1][..i] == steps[..i];
      i := i + 1;
    }
    assert steps[..|steps|] == steps;
  }

  method Take(runtime: Runtime, c: nat, step: Step)
    requires runtime.Valid()
    modifies runtime, runtime.manager
    ensures runtime.Valid() && runtime.View() == After(old(runtime.View()), c, step)
  {
    hide Recorded, Claimed, Registered, Numbered, Ended;
    if c !in runtime.connections {
      if step.AcceptStep? {
        runtime.Accept(c);
      }
      return;
    }
    var stage := runtime.connections[c].stage;
    if step.ArriveStep? && stage.Reading? {
      runtime.Arrive(c, step.arrival);
    } else if step.ClaimStep? && stage.Claiming? {
      runtime.Claim(c, step.listening);
    } else if step.CheckStep? && stage.Checking? {
      runtime.Check(c, step.now);
    } else if step.RegisterStep? && stage.Registering? {
      runtime.Register(c);
    } else if step.ObservedStep? && stage.Observing? {
      runtime.Observed(c, step.result);
    } else if step.NumberStep? && stage.Numbering? {
      var _ := runtime.Number(c);
    } else if step.EndStep? && stage.Ending? {
      runtime.End(c);
    }
  }
}

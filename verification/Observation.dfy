/** Authenticated observation of a Browser: starts, stops and streams that outlive
    their lease, in any interleaving. */
module Observation {
  import opened Basics

  /** The attempt that a command names or that a frame was captured under; digests
      are taken to be injective. */
  datatype Attempt = Attempt(run: nat, session: nat, sessionEpoch: nat, attachment: nat)

  datatype Command = Command(id: nat, lease: nat, attempt: Attempt, acceptsFinal: bool)

  datatype Kind = Started | Stopped | Frame(captured: Attempt, final: bool) | ErrorEvent

  /** An event that was given a number, with the stream it came from. */
  datatype Event = Event(number: nat, command: Command, kind: Kind, stream: nat)

  datatype Stage = Opening | Looping | Ending | Gone

  datatype Stream = Stream(command: Command, stage: Stage, cancelled: bool)

  /** What the engine answers to a capture. */
  datatype Capture = Transient | Broken | NoFrame | Captured(under: Attempt)

  datatype Outcome = Delivered | Retry | Ended

  /** The attempts agree in everything but the session, which a capture does not carry. */
  predicate Foreign(local: Attempt, under: Attempt) {
    under.run != local.run || under.sessionEpoch != local.sessionEpoch || under.attachment != local.attachment
  }

  /** A capture that leaves nothing to report. */
  predicate Unsettled(command: Command, local: Option<Attempt>, capture: Capture) {
    local == Some(command.attempt) && (capture.Transient? || capture.NoFrame?)
  }

  /** A numbered event: consecutive, from a stream of its own command, final only
      where that was agreed, and a frame only of the attempt that was named. */
  ghost predicate Proper(log: seq<Event>, streams: map<nat, Stream>, i: nat) {
    i < |log| ==>
      && log[i].number == i + 1
      && log[i].stream in streams && streams[log[i].stream].command == log[i].command
      && (log[i].kind.Frame? ==>
            && (log[i].kind.final ==> log[i].command.acceptsFinal)
            && !Foreign(log[i].command.attempt, log[i].kind.captured))
  }

  /** A stream that has not been cancelled is the one that owns the lease. */
  ghost predicate Running(streams: map<nat, Stream>, owner: Option<nat>, s: nat) {
    s in streams && !streams[s].cancelled && !streams[s].stage.Gone? ==> owner == Some(s)
  }

  /** No two starts were given the same lease. */
  ghost predicate Distinct(streams: map<nat, Stream>) {
    forall s, t :: s in streams && t in streams && s != t ==> streams[s].command.lease != streams[t].command.lease
  }

  // ---------- What the steps do ----------

  /** `owner` is the stream of the current lease, which `cancel` belongs to. */
  datatype State = State(leaseID: Option<nat>, commandID: Option<nat>, owner: Option<nat>, streams: map<nat, Stream>,
                         nextStream: nat, log: seq<Event>)
  {
    predicate Has(s: nat, stage: Stage) { s in streams && streams[s].stage == stage }

    predicate Current(s: nat) { s in streams && leaseID == Some(streams[s].command.lease) }

    function Moved(s: nat, stage: Stage): State
      requires s in streams
    {
      this.(streams := streams[s := streams[s].(stage := stage)])
    }
  }

  const IDLE := State(None, None, None, map[], 0, [])

  function Started_(v: State, command: Command): State {
    if v.leaseID.Some? then v
    else
      v.(leaseID := Some(command.lease), commandID := Some(command.id), owner := Some(v.nextStream),
         streams := v.streams[v.nextStream := Stream(command, Opening, false)], nextStream := v.nextStream + 1)
  }

  function StoppedLease(v: State, lease: Option<nat>): State {
    if lease.Some? && v.leaseID != lease then v
    else
      v.(leaseID := None, commandID := None, owner := None,
         streams := if v.owner.Some? && v.owner.value in v.streams
                    then v.streams[v.owner.value := v.streams[v.owner.value].(cancelled := true)] else v.streams)
  }

  /** An event is numbered while its lease is current. */
  function Emitted(v: State, s: nat, kind: Kind): State {
    if v.Current(s) then v.(log := v.log + [Event(|v.log| + 1, v.streams[s].command, kind, s)]) else v
  }

  function Opened(v: State, s: nat, opened_: bool, acknowledged: bool): State
    requires s in v.streams
  {
    Emitted(v, s, if opened_ then Started else ErrorEvent)
      .Moved(s, if opened_ && v.Current(s) && acknowledged then Looping else Ending)
  }

  function CapturedMarked(v: State, s: nat, local: Option<Attempt>, capture: Capture, marked: bool, acknowledged: bool): (State, Outcome)
    requires s in v.streams
  {
    if local != Some(v.streams[s].command.attempt) then (Emitted(v, s, ErrorEvent), Ended)
    else
      match capture
      case Transient => (v, Retry)
      case NoFrame => (v, Retry)
      case Broken => (Emitted(v, s, ErrorEvent), Ended)
      case Captured(under) =>
        if Foreign(local.value, under) then (Emitted(v, s, ErrorEvent), Ended)
        else (Emitted(v, s, Frame(under, marked)), if v.Current(s) && acknowledged then Delivered else Ended)
  }

  function Ticked(v: State, s: nat, local: Option<Attempt>, capture: Capture, acknowledged: bool): State
    requires s in v.streams
  {
    var (w, outcome) := CapturedMarked(v, s, local, capture, false, acknowledged);
    if outcome == Ended then w.Moved(s, Ending) else w
  }

  /** Attempts are made until one settles the matter. */
  function CapturedUntil(v: State, s: nat, attempts: seq<(Option<Attempt>, Capture, bool)>): (State, Outcome)
    requires s in v.streams
  {
    if attempts == [] then (v, Retry)
    else
      var n := |attempts| - 1;
      var (w, outcome) := CapturedUntil(v, s, attempts[..n]);
      if outcome != Retry || s !in w.streams then (w, outcome)
      else CapturedMarked(w, s, attempts[n].0, attempts[n].1, v.streams[s].command.acceptsFinal, attempts[n].2)
  }

  function CapturedFinal(v: State, s: nat, attempts: seq<(Option<Attempt>, Capture, bool)>): State
    requires s in v.streams
  {
    var (w, outcome) := CapturedUntil(v, s, attempts);
    if outcome == Ended && s in w.streams then w.Moved(s, Ending) else w
  }

  function Exited(v: State, s: nat): State
    requires s in v.streams
  {
    var w := StoppedLease(v, Some(v.streams[s].command.lease));
    if s in w.streams then w.Moved(s, Gone) else w
  }

  datatype Step = StartStep(command: Command) | StopStep(lease: Option<nat>)
                | OpenStep(s: nat, opened_: bool, acknowledged: bool)
                | TickStep(s: nat, local: Option<Attempt>, capture: Capture, acknowledged: bool)
                | FinalStep(s: nat, attempts: seq<(Option<Attempt>, Capture, bool)>)
                | NoticeStep(s: nat) | ExitStep(s: nat)

  /** The step is taken if its stream is there. */
  function After(v: State, step: Step): State {
    match step
    case StartStep(command) => Started_(v, command)
    case StopStep(lease) => StoppedLease(v, lease)
    case OpenStep(s, opened_, acknowledged) => if v.Has(s, Opening) then Opened(v, s, opened_, acknowledged) else v
    case TickStep(s, local, capture, acknowledged) =>
      if v.Has(s, Looping) then Ticked(v, s, local, capture, acknowledged) else v
    case FinalStep(s, attempts) => if v.Has(s, Looping) then CapturedFinal(v, s, attempts) else v
    case NoticeStep(s) => if v.Has(s, Looping) then Emitted(v, s, Stopped).Moved(s, Ending) else v
    case ExitStep(s) => if v.Has(s, Ending) then Exited(v, s) else v
  }

  function Reached(steps: seq<Step>): State {
    if steps == [] then IDLE else After(Reached(steps[..|steps| - 1]), steps[|steps| - 1])
  }

  // ---------- What a step promises ----------

  /** A start while nothing is active makes a stream of its command that owns the lease;
      any other changes nothing. */
  lemma StartOwns(v: State, command: Command)
    ensures var w := Started_(v, command);
            && (v.leaseID.Some? ==> w == v)
            && (v.leaseID.None? ==>
                  && w.leaseID == Some(command.lease) && w.commandID == Some(command.id) && w.owner == Some(v.nextStream)
                  && w.nextStream == v.nextStream + 1 && w.log == v.log
                  && w.streams == v.streams[v.nextStream := Stream(command, Opening, false)])
  {
  }

  /** The event that is added, if the stream's lease is current. */
  function Added(v: State, s: nat, kind: Kind): seq<Event>
    requires s in v.streams
  {
    if v.leaseID == Some(v.streams[s].command.lease) then [Event(|v.log| + 1, v.streams[s].command, kind, s)] else []
  }

  /** Opening announces the start or an error under the current lease, and only a stream
      whose announced start is acknowledged goes on. */
  lemma OpenAnnounces(v: State, s: nat, opened_: bool, acknowledged: bool)
    requires s in v.streams
    ensures var w := Opened(v, s, opened_, acknowledged);
            var stage := if opened_ && acknowledged && v.leaseID == Some(v.streams[s].command.lease) then Looping else Ending;
            w == v.(log := v.log + Added(v, s, if opened_ then Started else ErrorEvent),
                    streams := v.streams[s := v.streams[s].(stage := stage)])
  {
    assert v.log + [] == v.log;
  }

  /** A capture under the named attempt is published as a frame, one under another and a
      broken one as an error; nothing to capture is tried again. */
  lemma CaptureTells(v: State, s: nat, local: Option<Attempt>, capture: Capture, marked: bool, acknowledged: bool)
    requires s in v.streams
    ensures var (w, outcome) := CapturedMarked(v, s, local, capture, marked, acknowledged);
            var attempt := v.streams[s].command.attempt;
            var own := local == Some(attempt) && capture.Captured? && capture.under.run == attempt.run &&
                       capture.under.sessionEpoch == attempt.sessionEpoch && capture.under.attachment == attempt.attachment;
            var idle := local == Some(attempt) && (capture.Transient? || capture.NoFrame?);
            && (outcome == Retry <==> idle)
            && (outcome == Delivered <==> own && acknowledged && v.leaseID == Some(v.streams[s].command.lease))
            && w == (if idle then v
                     else v.(log := v.log + Added(v, s, if own then Frame(capture.under, marked) else ErrorEvent)))
  {
    assert v.log + [] == v.log;
  }

  /** A tick goes on unless its capture has ended the stream. */
  lemma TickLeads(v: State, s: nat, local: Option<Attempt>, capture: Capture, acknowledged: bool)
    requires s in v.streams
    ensures var (w, outcome) := CapturedMarked(v, s, local, capture, false, acknowledged);
            Ticked(v, s, local, capture, acknowledged) ==
              if outcome == Ended then w.(streams := v.streams[s := v.streams[s].(stage := Ending)]) else w
  {
  }

  /** The last captures are tried until one settles the matter, which decides. */
  lemma {:induction false} FirstSettledDecides(v: State, s: nat, attempts: seq<(Option<Attempt>, Capture, bool)>, i: nat)
    requires s in v.streams && i < |attempts| && !Unsettled(v.streams[s].command, attempts[i].0, attempts[i].1)
    requires forall j :: 0 <= j < i ==> Unsettled(v.streams[s].command, attempts[j].0, attempts[j].1)
    ensures CapturedUntil(v, s, attempts) ==
              CapturedMarked(v, s, attempts[i].0, attempts[i].1, v.streams[s].command.acceptsFinal, attempts[i].2)
  {
    AllUnsettled(v, s, attempts[..i]);
    assert attempts[..i + 1][..i] == attempts[..i];
    SettledEarly(v, s, attempts, i + 1);
  }

  lemma {:induction false} AllUnsettled(v: State, s: nat, attempts: seq<(Option<Attempt>, Capture, bool)>)
    requires s in v.streams && forall a :: a in attempts ==> Unsettled(v.streams[s].command, a.0, a.1)
    ensures CapturedUntil(v, s, attempts) == (v, Retry)
  {
    if attempts != [] {
      var n := |attempts| - 1;
      assert attempts[n] in attempts;
      AllUnsettled(v, s, attempts[..n]);
    }
  }

  /** A stop ends the named lease, or whichever is active, and cancels its stream. */
  lemma StopEnds(v: State, lease: Option<nat>)
    ensures var w := StoppedLease(v, lease);
            && w.log == v.log && w.nextStream == v.nextStream
            && (lease.Some? && lease != v.leaseID ==> w == v)
            && (lease.None? || lease == v.leaseID ==>
                  && w.leaseID.None? && w.commandID.None? && w.owner.None? && w.streams.Keys == v.streams.Keys
                  && forall s :: s in v.streams ==>
                       w.streams[s] == if v.owner == Some(s) then v.streams[s].(cancelled := true) else v.streams[s])
  {
  }

  // ---------- A whole observation ----------

  function AfterSteps(v: State, steps: seq<Step>): State {
    if steps == [] then v else After(AfterSteps(v, steps[..|steps| - 1]), steps[|steps| - 1])
  }

  lemma OneMore(v: State, steps: seq<Step>, step: Step)
    ensures AfterSteps(v, steps + [step]) == After(AfterSteps(v, steps), step)
  {
    assert (steps + [step])[..|steps|] == steps;
  }

  lemma NoSteps(v: State)
    ensures AfterSteps(v, []) == v
  {
  }

  /** A start, a frame, a last frame and a notice. */
  function Round(s: nat, command: Command): seq<Step> {
    var local := Some(command.attempt);
    [StartStep(command)] + [OpenStep(s, true, true)] + [TickStep(s, local, Captured(command.attempt), true)]
    + [FinalStep(s, [(local, Captured(command.attempt), true)])] + [NoticeStep(s)] + [ExitStep(s)]
  }

  /** Undisturbed, an observation is numbered from its start over its frames, the last
      one marked where that was agreed, to its end; then the lease is free again. */
  lemma RoundIsPublished(v: State, command: Command)
    requires v.leaseID.None?
    ensures var s, n := v.nextStream, |v.log|;
            var w := AfterSteps(v, Round(s, command));
            && w.log == v.log + [Event(n + 1, command, Started, s), Event(n + 2, command, Frame(command.attempt, false), s),
                                 Event(n + 3, command, Frame(command.attempt, command.acceptsFinal), s), Event(n + 4, command, Stopped, s)]
            && w.leaseID.None? && w.owner.None? && s in w.streams && w.streams[s].stage == Gone && w.nextStream == s + 1
  {
    hide AfterSteps, CapturedFinal;
    var s, steps, local := v.nextStream, Round(v.nextStream, command), Some(command.attempt);
    var attempt := (local, Captured(command.attempt), true);
    RoundPrefixes(s, command);
    NoSteps(v);
    OneMore(v, [], StartStep(command));
    OneMore(v, steps[..1], OpenStep(s, true, true));
    OneMore(v, steps[..2], TickStep(s, local, Captured(command.attempt), true));
    OneMore(v, steps[..3], FinalStep(s, [attempt]));
    OneMore(v, steps[..4], NoticeStep(s));
    OneMore(v, steps[..5], ExitStep(s));
    var ticked := AfterSteps(v, steps[..3]);
    FinalFrame(ticked, s, command);
  }

  lemma FinalFrame(v: State, s: nat, command: Command)
    requires v.Has(s, Looping) && v.streams[s].command == command && v.leaseID == Some(command.lease)
    ensures After(v, FinalStep(s, [(Some(command.attempt), Captured(command.attempt), true)])) ==
              v.(log := v.log + [Event(|v.log| + 1, command, Frame(command.attempt, command.acceptsFinal), s)])
  {
    var attempts := [(Some(command.attempt), Captured(command.attempt), true)];
    FirstSettledDecides(v, s, attempts, 0);
  }

  lemma RoundPrefixes(s: nat, command: Command)
    ensures var steps, local := Round(s, command), Some(command.attempt);
            && |steps| == 6 && steps[..1] == [] + [StartStep(command)] && steps[..2] == steps[..1] + [OpenStep(s, true, true)]
            && steps[..3] == steps[..2] + [TickStep(s, local, Captured(command.attempt), true)]
            && steps[..4] == steps[..3] + [FinalStep(s, [(local, Captured(command.attempt), true)])]
            && steps[..5] == steps[..4] + [NoticeStep(s)] && steps == steps[..5] + [ExitStep(s)]
  {
  }

  // ---------- The program ----------

  class Observation {
    var leaseID: Option<nat>
    var commandID: Option<nat>
    var eventSeq: nat
    /** The stream of the current lease, which `cancel` belongs to. */
    var owner: Option<nat>
    var streams: map<nat, Stream>
    var nextStream: nat
    ghost var log: seq<Event>

    constructor ()
      ensures Valid() && View() == IDLE
    {
      leaseID, commandID, eventSeq, owner, streams, nextStream, log := None, None, 0, None, map[], 0, [];
    }

    ghost function View(): State
      reads this
    {
      State(leaseID, commandID, owner, streams, nextStream, log)
    }

    ghost predicate Valid()
      reads this
    {
      && eventSeq == |log| && (forall i :: Proper(log, streams, i)) && (forall s :: Running(streams, owner, s))
      && (forall s :: s in streams ==> s < nextStream)
      && (owner.Some? <==> leaseID.Some?)
      && (owner.Some? ==> owner.value in streams && leaseID == Some(streams[owner.value].command.lease) &&
                          commandID == Some(streams[owner.value].command.id))
    }

    predicate Is(s: nat, stage: Stage)
      reads this
    {
      s in streams && streams[s].stage == stage
    }

    /** Keeps what concerns the streams when one of them moves on. */
    method Move(s: nat, stage: Stage, cancelled: bool)
      requires Valid() && s in streams
      requires !cancelled && !stage.Gone? ==> !streams[s].cancelled && !streams[s].stage.Gone?
      modifies `streams
      ensures Valid() && streams == old(streams)[s := old(streams)[s].(stage := stage, cancelled := cancelled)]
    {
      ghost var before := streams;
      streams := streams[s := streams[s].(stage := stage, cancelled := cancelled)];
      forall t
        ensures Running(streams, owner, t)
      {
        assert Running(before, owner, t);
      }
      forall i
        ensures Proper(log, streams, i)
      {
        assert Proper(log, before, i);
      }
    }

    // ---------- Commands ----------

    /** Starts an observation unless one is active; a repeated start is not a conflict
        and changes nothing, another one is refused outside the numbering. */
    method Start(command: Command) returns (busy: bool)
      requires Valid()
      modifies `leaseID, `commandID, `owner, `streams, `nextStream
      ensures Valid() && View() == Started_(old(View()), command)
      ensures old(leaseID).Some? ==>
                View() == old(View()) && (busy <==> old(leaseID) != Some(command.lease) || old(commandID) != Some(command.id))
      ensures old(leaseID).None? ==> !busy && leaseID == Some(command.lease) && owner == Some(old(nextStream))
    {
      if leaseID.Some? {
        return leaseID != Some(command.lease) || commandID != Some(command.id);
      }
      ghost var before := streams;
      leaseID, commandID, owner := Some(command.lease), Some(command.id), Some(nextStream);
      streams, nextStream := streams[nextStream := Stream(command, Opening, false)], nextStream + 1;
      busy := false;
      forall t
        ensures Running(streams, owner, t)
      {
        assert Running(before, old(owner), t);
      }
      forall i
        ensures Proper(log, streams, i)
      {
        assert Proper(log, before, i);
      }
    }

    /** Ends the named lease, or whichever is active; its stream is cancelled. */
    method StopLease(lease: Option<nat>)
      requires Valid()
      modifies `leaseID, `commandID, `owner, `streams
      ensures Valid() && View() == StoppedLease(old(View()), lease)
      ensures lease.Some? && lease != old(leaseID) ==> leaseID == old(leaseID) && owner == old(owner) && streams == old(streams)
      ensures lease.None? || lease == old(leaseID) ==> leaseID == None && owner == None
      ensures (lease.None? || lease == old(leaseID)) && old(owner).Some? ==>
                streams == old(streams)[old(owner).value := old(streams)[old(owner).value].(cancelled := true)]
      ensures old(owner).None? ==> streams == old(streams)
    {
      if lease.Some? && leaseID != lease {
        return;
      }
      if owner.Some? {
        Move(owner.value, streams[owner.value].stage, true);
      }
      forall t
        ensures Running(streams, None, t)
      {
        assert Running(streams, owner, t);
      }
      leaseID, commandID, owner := None, None, None;
    }

    // ---------- A stream ----------

    /** Numbers an event while its lease is current. */
    method EmitEvent(s: nat, kind: Kind) returns (numbered: bool)
      requires Valid() && s in streams
      requires kind.Frame? ==> (kind.final ==> streams[s].command.acceptsFinal) && !Foreign(streams[s].command.attempt, kind.captured)
      modifies `eventSeq, `log
      ensures Valid() && View() == Emitted(old(View()), s, kind)
      ensures numbered <==> leaseID == Some(streams[s].command.lease)
      ensures log == if numbered then old(log) + [Event(|old(log)| + 1, streams[s].command, kind, s)] else old(log)
    {
      numbered := leaseID == Some(streams[s].command.lease);
      if numbered {
        eventSeq := eventSeq + 1;
        ghost var before := log;
        log := log + [Event(eventSeq, streams[s].command, kind, s)];
        forall i
          ensures Proper(log, streams, i)
        {
          assert Proper(before, streams, i);
        }
      }
    }

    /** The bridge is opened and the start is announced. */
    method Open(s: nat, opened_: bool, acknowledged: bool)
      requires Valid() && s in streams && streams[s].stage.Opening?
      modifies `eventSeq, `log, `streams
      ensures Valid() && View() == Opened(old(View()), s, opened_, acknowledged)
      ensures s in streams && (streams[s].stage.Looping? <==> opened_ && acknowledged && leaseID == Some(streams[s].command.lease))
      ensures streams[s].stage.Looping? || streams[s].stage.Ending?
    {
      var kind := if opened_ then Started else ErrorEvent;
      var numbered := EmitEvent(s, kind);
      Move(s, if opened_ && numbered && acknowledged then Looping else Ending, streams[s].cancelled);
    }

    /** A capture, checked against the local attempt before and after. */
    method CaptureMarked(s: nat, local: Option<Attempt>, capture: Capture, marked: bool, acknowledged: bool)
      returns (outcome: Outcome)
      requires Valid() && s in streams && (marked ==> streams[s].command.acceptsFinal)
      modifies `eventSeq, `log
      ensures Valid() && old(log) <= log
      ensures (View(), outcome) == CapturedMarked(old(View()), s, local, capture, marked, acknowledged)
      ensures forall i :: |old(log)| <= i < |log| && log[i].kind.Frame? ==>
                local == Some(streams[s].command.attempt) && (log[i].kind.final <==> marked)
      ensures outcome == Retry <==> local == Some(streams[s].command.attempt) && (capture.Transient? || capture.NoFrame?)
      ensures outcome == Retry ==> log == old(log)
      ensures outcome == Delivered <==>
                && local == Some(streams[s].command.attempt) && capture.Captured? && !Foreign(local.value, capture.under)
                && acknowledged && leaseID == Some(streams[s].command.lease)
      ensures local == Some(streams[s].command.attempt) && capture.Captured? && !Foreign(local.value, capture.under) &&
              leaseID == Some(streams[s].command.lease) ==>
                log == old(log) + [Event(|old(log)| + 1, streams[s].command, Frame(capture.under, marked), s)]
    {
      if local != Some(streams[s].command.attempt) {
        var _ := EmitEvent(s, ErrorEvent);
        return Ended;
      }
      match capture {
        case Transient => return Retry;
        case NoFrame => return Retry;
        case Broken =>
          var _ := EmitEvent(s, ErrorEvent);
          return Ended;
        case Captured(under) =>
          if Foreign(local.value, under) {
            var _ := EmitEvent(s, ErrorEvent);
            return Ended;
          }
          var numbered := EmitEvent(s, Frame(under, marked));
          return if numbered && acknowledged then Delivered else Ended;
      }
    }

    /** A tick of the stream. */
    method Tick(s: nat, local: Option<Attempt>, capture: Capture, acknowledged: bool)
      requires Valid() && s in streams && streams[s].stage.Looping?
      modifies `eventSeq, `log, `streams
      ensures Valid() && View() == Ticked(old(View()), s, local, capture, acknowledged)
      ensures forall i :: |old(log)| <= i < |log| ==> !(log[i].kind.Frame? && log[i].kind.final)
      ensures local == Some(old(streams)[s].command.attempt) && (capture.Transient? || capture.NoFrame?) ==>
                log == old(log) && streams == old(streams)
      ensures local == Some(old(streams)[s].command.attempt) && capture.Captured? && !Foreign(local.value, capture.under) &&
              leaseID == Some(old(streams)[s].command.lease) ==>
                && log == old(log) + [Event(|old(log)| + 1, old(streams)[s].command, Frame(capture.under, false), s)]
                && s in streams && (streams[s].stage.Looping? <==> acknowledged)
    {
      var outcome := CaptureMarked(s, local, capture, false, acknowledged);
      if outcome == Ended {
        Move(s, Ending, streams[s].cancelled);
      }
    }

    /** The round is ending: retries within a window until something is settled. The
        frame is marked exactly where the start said that it may be. */
    method CaptureFinal(s: nat, attempts: seq<(Option<Attempt>, Capture, bool)>) returns (outcome: Outcome)
      requires Valid() && s in streams && streams[s].stage.Looping?
      modifies `eventSeq, `log, `streams
      ensures Valid() && View() == CapturedFinal(old(View()), s, attempts)
      ensures forall i :: |old(log)| <= i < |log| && log[i].kind.Frame? ==>
                (log[i].kind.final <==> old(streams)[s].command.acceptsFinal)
      ensures outcome == Retry <==> forall a :: a in attempts ==> Unsettled(old(streams)[s].command, a.0, a.1)
    {
      outcome := Retry;
      var marked := streams[s].command.acceptsFinal;
      var i := 0;
      while i < |attempts| && outcome == Retry
        invariant 0 <= i <= |attempts| && Valid() && streams == old(streams) && old(log) <= log
        invariant (View(), outcome) == CapturedUntil(old(View()), s, attempts[..i])
        invariant outcome == Retry ==> log == old(log)
        invariant outcome == Retry <==> forall a :: a in attempts[..i] ==> Unsettled(streams[s].command, a.0, a.1)
        invariant forall j :: |old(log)| <= j < |log| && log[j].kind.Frame? ==> (log[j].kind.final <==> marked)
      {
        outcome := CaptureMarked(s, attempts[i].0, attempts[i].1, marked, attempts[i].2);
        assert attempts[..i + 1] == attempts[..i] + [attempts[i]] && attempts[..i + 1][..i] == attempts[..i];
        i := i + 1;
      }
      SettledEarly(old(View()), s, attempts, i);
      if outcome == Ended {
        Move(s, Ending, streams[s].cancelled);
      }
    }

    /** A cancelled stream says that it stops, if its lease is still current. */
    method Notice(s: nat)
      requires Valid() && s in streams && streams[s].stage.Looping?
      modifies `eventSeq, `log, `streams
      ensures Valid() && View() == Emitted(old(View()), s, Stopped).Moved(s, Ending)
      ensures log == if leaseID == Some(streams[s].command.lease)
                     then old(log) + [Event(|old(log)| + 1, streams[s].command, Stopped, s)] else old(log)
    {
      var _ := EmitEvent(s, Stopped);
      Move(s, Ending, streams[s].cancelled);
    }

    /** The deferred end of a stream gives up its lease by name. It takes the lease
        of another stream exactly if that one was started under the same name. */
    method Exit(s: nat)
      requires Valid() && s in streams && streams[s].stage.Ending?
      modifies `leaseID, `commandID, `owner, `streams
      ensures Valid() && View() == Exited(old(View()), s)
      ensures s in streams && streams[s].stage.Gone?
      ensures old(owner).Some? && old(owner) != Some(s) ==>
                owner == if old(streams)[old(owner).value].command.lease == old(streams)[s].command.lease then None else old(owner)
      ensures old(owner) == Some(s) ==> owner == None
      ensures forall t :: t in old(streams) && t != s ==>
                t in streams && streams[t] == if owner != old(owner) && old(owner) == Some(t)
                                              then old(streams)[t].(cancelled := true) else old(streams)[t]
      ensures old(Distinct(streams)) && old(owner) != Some(s) ==> leaseID == old(leaseID) && owner == old(owner)
    {
      StopLease(Some(streams[s].command.lease));
      Move(s, Gone, streams[s].cancelled);
    }
  }

  /** Later attempts change nothing once the matter is settled. */
  lemma {:induction false} SettledEarly(v: State, s: nat, attempts: seq<(Option<Attempt>, Capture, bool)>, i: nat)
    requires s in v.streams && i <= |attempts|
    requires i < |attempts| ==> CapturedUntil(v, s, attempts[..i]).1 != Retry
    ensures CapturedUntil(v, s, attempts) == CapturedUntil(v, s, attempts[..i])
  {
    if i == |attempts| {
      assert attempts[..i] == attempts;
    } else {
      assert attempts[..|attempts| - 1][..i] == attempts[..i];
      SettledEarly(v, s, attempts[..|attempts| - 1], i);
    }
  }

  /** The events that carry one lease are numbered in the order they were emitted,
      and with distinct leases they all come from one stream. */
  lemma OneStreamPerLease(log: seq<Event>, streams: map<nat, Stream>, i: nat, j: nat)
    requires (forall k :: Proper(log, streams, k)) && Distinct(streams) && i < j < |log|
    requires log[i].command.lease == log[j].command.lease
    ensures log[i].stream == log[j].stream && log[i].command == log[j].command && log[i].number < log[j].number
  {
    assert Proper(log, streams, i) && Proper(log, streams, j);
  }

  /** A lease name that is used again while its first stream is still winding down:
      that stream's end takes the second observation down. */
  method ReusedLeaseIsTornDown(first: Command, second: Command) returns (observation: Observation)
    requires first.lease == second.lease && first.id != second.id
    ensures fresh(observation) && observation.Valid()
    ensures observation.leaseID == None && 1 in observation.streams && observation.streams[1] == Stream(second, Opening, true)
  {
    observation := new Observation();
    var _ := observation.Start(first);
    observation.StopLease(Some(first.lease));
    observation.Open(0, false, false);
    var _ := observation.Start(second);
    observation.Exit(0);
  }

  // ---------- Whole runs ----------

  /** Any interleaving of commands and streams leads where they lead one by one, and
      every event is properly numbered. */
  method Run(steps: seq<Step>) returns (observation: Observation)
    ensures fresh(observation) && observation.Valid() && observation.View() == Reached(steps)
    ensures forall i :: Proper(observation.log, observation.streams, i)
  {
    observation := new Observation();
    var i := 0;
    while i < |steps|
      invariant 0 <= i <= |steps| && fresh(observation) && observation.Valid()
      invariant observation.View() == Reached(steps[..i])
    {
      Take(observation, steps[i]);
      assert steps[..i + 1][..i] == steps[..i];
      i := i + 1;
    }
    assert steps[..|steps|] == steps;
  }

  method Take(observation: Observation, step: Step)
    requires observation.Valid()
    modifies observation
    ensures observation.Valid() && observation.View() == After(old(observation.View()), step)
  {
    hide Started_, StoppedLease, Opened, Ticked, CapturedFinal, Exited, Emitted, Proper, Running;
    match step {
      case StartStep(command) => var _ := observation.Start(command);
      case StopStep(lease) => observation.StopLease(lease);
      case OpenStep(s, opened_, acknowledged) =>
        if observation.Is(s, Opening) { observation.Open(s, opened_, acknowledged); }
      case TickStep(s, local, capture, acknowledged) =>
        if observation.Is(s, Looping) { observation.Tick(s, local, capture, acknowledged); }
      case FinalStep(s, attempts) =>
        if observation.Is(s, Looping) { var _ := observation.CaptureFinal(s, attempts); }
      case NoticeStep(s) => if observation.Is(s, Looping) { observation.Notice(s); }
      case ExitStep(s) => if observation.Is(s, Ending) { observation.Exit(s); }
    }
  }
}

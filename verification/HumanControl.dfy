/** Human take-over of a Browser lease: Viewer commands, which may be repeated and
    reordered, interleaved with the agent's pauses, rotations and closes. */
module HumanControl {
  import opened Basics
  import opened BrowserLease

  datatype Action = Claim | Input | Release | Resume | Terminate

  datatype Command = Command(action: Action, run: nat, session: nat, sessionEpoch: nat, attachment: nat,
                             previous: nat, epoch: nat)
  {
    /** What decoding a command demands of it. */
    predicate Valid() {
      0 < previous && epoch == if action == Input then previous else previous + 1
    }

    predicate Names(identity: Identity) {
      && run == identity.run && session == identity.session && sessionEpoch == identity.sessionEpoch
      && attachment == identity.attachment && previous == identity.controlEpoch
    }
  }

  datatype Cause = ByCommand(command: Command) | ByPause | ByClose | ByRotate

  /** A change of the identity held by the lease. */
  datatype Effect = Effect(cause: Cause, before: Identity, after: Identity)

  /** A command's transition: it names the identity it changes. */
  predicate LegalCommand(command: Command, before: Identity, after: Identity) {
    && command.Valid() && command.Names(before)
    && after == before.(controlEpoch := command.epoch, controller := after.controller)
    && match command.action
       case Claim => before.controller == Nobody && after.controller == Human
       case Release => before.controller == Human && after.controller == Nobody
       case Resume => before.controller == Nobody && after.controller == Agent
       case _ => false
  }

  /** The hand-over diagram: agent, nobody, human, nobody, agent; only closing the
      Browser and rotating lead to the agent from anywhere. */
  predicate Legal(effect: Effect) {
    && effect.after.controlEpoch == effect.before.controlEpoch + 1
    && match effect.cause
       case ByCommand(command) => LegalCommand(command, effect.before, effect.after)
       case ByPause => effect.before.controller == Agent && effect.after.controller == Nobody
       case ByClose => effect.before.controller != Agent && effect.after.controller == Agent
       case ByRotate => effect.after.controller == Agent && effect.after.sessionEpoch == effect.before.sessionEpoch + 1
  }

  /** The controller that an effective command takes over from, and the one that it
      hands over to. */
  function Taken(action: Action): Controller {
    if action == Release then Human else Nobody
  }

  function Given(action: Action): Controller {
    match action
    case Claim => Human
    case Release => Nobody
    case _ => Agent
  }

  predicate Linked(trace: seq<Effect>) {
    && (forall i :: 0 <= i < |trace| ==> Legal(trace[i]))
    && forall i :: 0 < i < |trace| ==> trace[i].before == trace[i - 1].after
  }

  lemma {:induction false} EpochsRise(trace: seq<Effect>, i: nat, j: nat)
    requires Linked(trace) && i <= j < |trace|
    ensures trace[j].after.controlEpoch == trace[i].after.controlEpoch + (j - i)
    decreases j - i
  {
    if i < j {
      EpochsRise(trace, i, j - 1);
      assert trace[j].before == trace[j - 1].after && Legal(trace[j]);
    }
  }

  /** A command takes effect at most once, however often it arrives. */
  lemma EffectiveOnce(trace: seq<Effect>, i: nat, j: nat)
    requires Linked(trace) && i < |trace| && j < |trace|
    requires trace[i].cause.ByCommand? && trace[i].cause == trace[j].cause
    ensures i == j
  {
    assert Legal(trace[i]) && Legal(trace[j]);
    if i < j {
      EpochsRise(trace, i, j);
    } else {
      EpochsRise(trace, j, i);
    }
  }

  /** The agent is kept out from a pause on: before a human has control, a pause has
      taken it from the agent, who has not had it since; and the human's own claim is
      the last transition. */
  lemma {:induction false} HumanAfterPauseAndClaim(trace: seq<Effect>, i: nat, j: nat)
    requires Linked(trace) && i <= j < |trace|
    requires trace[i].before.controller == Agent && trace[j].after.controller == Human
    ensures trace[j].cause.ByCommand? && trace[j].cause.command.action == Claim
    ensures exists p :: PausedFrom(trace, i, p, j)
  {
    assert Legal(trace[j]);
    if i < j {
      AgentOutAfterPause(trace, i, j - 1);
      assert trace[j].before == trace[j - 1].after;
      var p :| PausedFrom(trace, i, p, j - 1);
      assert PausedFrom(trace, i, p, j);
    }
  }

  /** A pause at `p` after which the agent has not had control up to `j`. */
  predicate PausedFrom(trace: seq<Effect>, i: nat, p: nat, j: nat) {
    i <= p <= j < |trace| && trace[p].cause.ByPause? && forall k :: p <= k <= j ==> trace[k].after.controller != Agent
  }

  lemma {:induction false} AgentOutAfterPause(trace: seq<Effect>, i: nat, j: nat)
    requires Linked(trace) && i <= j < |trace|
    requires trace[i].before.controller == Agent && trace[j].after.controller != Agent
    ensures exists p :: PausedFrom(trace, i, p, j)
  {
    assert Legal(trace[j]);
    if trace[j].before.controller == Agent {
      assert PausedFrom(trace, i, j, j);
    } else {
      assert trace[j].before == trace[j - 1].after;
      AgentOutAfterPause(trace, i, j - 1);
      var p :| PausedFrom(trace, i, p, j - 1);
      assert PausedFrom(trace, i, p, j);
    }
  }

  // ---------- What events do ----------

  /** A Run's control of its lease `h`.
      `handling`: the command being handled, which has been matched against the lease;
      `finishing`: its transition has been made and its waiters are to be released;
      `channel`: of the latest pause, `shut` the closed ones, `pausing` those of pauses
      that have not yet changed the lease; `panicked`: a closed channel was closed
      again; `crossed`: channels that a command closed while their pause was still to
      change the lease; `failed`: those of pauses that could not change it. */
  datatype Desk = Desk(world: World, h: nat, handling: Option<Command>, finishing: bool, paused: bool, channel: nat,
                       shut: set<nat>, pausing: set<nat>, panicked: bool, trace: seq<Effect>,
                       crossed: set<nat>, failed: set<nat>)
  {
    predicate Held() { InUse(world, h) }

    function Identity(): Identity
      requires Held()
    {
      world.leases[h].lease.identity
    }
  }

  predicate Passes(d: Desk, expected: Controller, epoch: nat, luck: Luck) {
    Allowed(d.world, d.h, expected, epoch) && luck.Persists()
  }

  /** A lease transition, recorded if it takes effect. */
  function Handed(d: Desk, cause: Cause, expected: Controller, target: Controller, epoch: nat, luck: Luck): Desk {
    if Allowed(d.world, d.h, expected, epoch) then
      var w := AfterTransition(d.world, d.h, target, luck);
      d.(world := w,
         trace := if luck.Persists() then d.trace + [Effect(cause, d.Identity(), w.leases[d.h].lease.identity)] else d.trace)
    else d
  }

  function Received(d: Desk, command: Command): Desk {
    if d.handling.None? && command.Valid() && d.Held() && command.Names(d.Identity()) then d.(handling := Some(command)) else d
  }

  predicate Acts(d: Desk, command: Command, viewer: bool, luck: Luck) {
    && command.action != Input && (command.action == Release ==> viewer)
    && Passes(d, Taken(command.action), command.epoch, luck)
  }

  /** Claim, release and resume each ask for one transition at the command's epoch. */
  function Acted(d: Desk, command: Command, viewer: bool, luck: Luck): Desk {
    if command.action == Input || (command.action == Release && !viewer) then d
    else Handed(d, ByCommand(command), Taken(command.action), Given(command.action), command.epoch, luck)
  }

  /** Closing the Browser first takes control back to the agent, if it was in use by
      the controller `seen`. */
  function RuntimeClosed(d: Desk, seen: Controller, luck: Luck): Desk {
    if seen == Agent then d else Handed(d, ByClose, seen, Agent, 0, luck)
  }

  function LeaseClosed(d: Desk, luck: Luck): Desk {
    if d.Held() then d.(world := AfterClose(d.world, d.h, luck)) else d
  }

  function AllClosed(d: Desk, seen: Controller, luck: Luck, second: Luck): Desk {
    var c := RuntimeClosed(d, seen, luck);
    if c.world.crashed then c else LeaseClosed(c, second)
  }

  function Proceeded(d: Desk, viewer: bool, seen: Controller, luck: Luck, second: Luck): Desk {
    if d.handling.None? || d.finishing then d
    else if d.handling.value.action == Terminate then AllClosed(d, seen, luck, second).(finishing := true)
    else
      var a := Acted(d, d.handling.value, viewer, luck);
      if d.handling.value.action == Resume && Acts(d, d.handling.value, viewer, luck) then a.(finishing := true)
      else a.(handling := None)
  }

  function ChannelClosed(d: Desk, which: nat): Desk {
    d.(panicked := d.panicked || which in d.shut, shut := d.shut + {which})
  }

  /** Resume and terminate let the waiting agent go on. */
  function Finished(d: Desk): Desk {
    if d.handling.None? || !d.finishing then d
    else
      var c := if d.paused
               then ChannelClosed(d, d.channel).(paused := false,
                                                 crossed := if d.channel in d.pausing then d.crossed + {d.channel} else d.crossed)
               else d;
      c.(handling := None, finishing := false)
  }

  /** The first of several pauses makes a channel and is to pause the lease. */
  function PauseBegun(d: Desk): Desk {
    if d.paused then d else d.(paused := true, channel := d.channel + 1, pausing := d.pausing + {d.channel + 1})
  }

  /** The pause reaches the lease; failing, it gives up its own channel. */
  function LeasePaused(d: Desk, mine: nat, luck: Luck): Desk {
    if mine !in d.pausing then d
    else
      var t := Handed(d, ByPause, Agent, Nobody, 0, luck).(pausing := d.pausing - {mine});
      if Passes(d, Agent, 0, luck) then t else ChannelClosed(t, mine).(paused := false, failed := d.failed + {mine})
  }

  function LeaseRotated(d: Desk, luck: Luck): Desk {
    if d.Held() then
      var w := AfterRotate(d.world, d.h, luck);
      d.(world := w, trace := d.trace + [Effect(ByRotate, d.Identity(), w.leases[d.h].lease.identity)])
    else d
  }

  datatype Event = ReceiveEvent(command: Command)
                 | ProceedEvent(viewer: bool, seen: Controller, luck: Luck, second: Luck)
                 | FinishEvent
                 | PauseBeginEvent
                 | PauseLeaseEvent(mine: nat, luck: Luck)
                 | CloseRuntimeEvent(seen: Controller, luck: Luck)
                 | RotateEvent(luck: Luck)
                 | CloseLeaseEvent(luck: Luck)

  /** A crashed process does nothing more. */
  function AfterEvent(d: Desk, event: Event): Desk {
    if d.world.crashed then d
    else
      match event
      case ReceiveEvent(command) => Received(d, command)
      case ProceedEvent(viewer, seen, luck, second) => Proceeded(d, viewer, seen, luck, second)
      case FinishEvent => Finished(d)
      case PauseBeginEvent => PauseBegun(d)
      case PauseLeaseEvent(mine, luck) => LeasePaused(d, mine, luck)
      case CloseRuntimeEvent(seen, luck) => RuntimeClosed(d, seen, luck)
      case RotateEvent(luck) => LeaseRotated(d, luck)
      case CloseLeaseEvent(luck) => LeaseClosed(d, luck)
  }

  function AfterEvents(d: Desk, events: seq<Event>): Desk {
    if events == [] then d else AfterEvent(AfterEvents(d, events[..|events| - 1]), events[|events| - 1])
  }

  // ---------- What they keep ----------

  /** A matched command still names the lease unless the lease has moved past it. */
  predicate Matched(d: Desk) {
    d.handling.Some? ==>
      && d.handling.value.Valid()
      && (d.Held() ==> d.handling.value.previous < d.Identity().controlEpoch || d.handling.value.Names(d.Identity()))
  }

  /** The latest pause's channel is open while it lasts; a pause that has yet to
      change the lease finds its channel closed exactly if a command crossed it; and
      a channel has been closed twice exactly if such a pause then failed. */
  ghost predicate ChannelsKept(d: Desk) {
    && (d.paused ==> d.channel !in d.shut) && (forall c :: ChannelKept(d, c))
    && (d.panicked <==> exists c :: Torn(d, c))
  }

  predicate ChannelKept(d: Desk, c: nat) {
    && (c in d.shut || c in d.pausing || c in d.crossed || c in d.failed ==> c <= d.channel)
    && (c in d.pausing ==> (c in d.shut <==> c in d.crossed) && c !in d.failed)
  }

  /** A pause that a command crossed has failed. */
  predicate Torn(d: Desk, c: nat) { c in d.crossed && c in d.failed }

  ghost predicate Lawful(d: Desk) {
    && Linked(d.trace) && Matched(d) && ChannelsKept(d)
    && (d.trace != [] && d.Held() ==> d.trace[|d.trace| - 1].after == d.Identity())
  }

  lemma TransitionLawful(d: Desk, cause: Cause, expected: Controller, target: Controller, epoch: nat, luck: Luck)
    requires Lawful(d)
    requires Allowed(d.world, d.h, expected, epoch) ==>
               Legal(Effect(cause, d.Identity(), HandedOver(d.world.leases[d.h].lease, target).identity))
    ensures Lawful(Handed(d, cause, expected, target, epoch, luck))
    ensures d.trace <= Handed(d, cause, expected, target, epoch, luck).trace
    ensures var t := Handed(d, cause, expected, target, epoch, luck); t == d.(world := t.world, trace := t.trace)
  {
    hide ChannelsKept, Persisted, Legal;
    var t := Handed(d, cause, expected, target, epoch, luck);
    ChannelsStay(d, t);
  }

  lemma ChannelsStay(d: Desk, t: Desk)
    requires ChannelsKept(d) && t == d.(world := t.world, handling := t.handling, finishing := t.finishing, trace := t.trace)
    ensures ChannelsKept(t)
  {
    forall c: nat
      ensures ChannelKept(t, c) && (Torn(t, c) <==> Torn(d, c))
    {
      assert ChannelKept(d, c);
    }
  }

  lemma CloseLawful(d: Desk, luck: Luck)
    requires Lawful(d)
    ensures Lawful(LeaseClosed(d, luck)) && LeaseClosed(d, luck).trace == d.trace
  {
    hide ChannelsKept;
    ChannelsStay(d, LeaseClosed(d, luck));
  }

  lemma ProceedLawful(d: Desk, viewer: bool, seen: Controller, luck: Luck, second: Luck)
    requires Lawful(d)
    ensures Lawful(Proceeded(d, viewer, seen, luck, second)) && d.trace <= Proceeded(d, viewer, seen, luck, second).trace
  {
    hide ChannelsKept, Handed, LeaseClosed, RuntimeClosed, Linked;
    var p := Proceeded(d, viewer, seen, luck, second);
    if d.handling.Some? && !d.finishing {
      var command := d.handling.value;
      if command.action == Terminate {
        RuntimeCloseLawful(d, seen, luck);
        CloseLawful(RuntimeClosed(d, seen, luck), second);
        ChannelsStay(AllClosed(d, seen, luck, second), p);
      } else {
        ActLawful(d, command, viewer, luck);
        ChannelsStay(Acted(d, command, viewer, luck), p);
      }
    }
  }

  lemma ActLawful(d: Desk, command: Command, viewer: bool, luck: Luck)
    requires Lawful(d) && d.handling == Some(command) && command.action != Terminate
    ensures Lawful(Acted(d, command, viewer, luck)) && d.trace <= Acted(d, command, viewer, luck).trace
  {
    hide ChannelsKept, Handed, Linked;
    if command.action != Input {
      TransitionLawful(d, ByCommand(command), Taken(command.action), Given(command.action), command.epoch, luck);
    }
  }

  lemma RuntimeCloseLawful(d: Desk, seen: Controller, luck: Luck)
    requires Lawful(d)
    ensures Lawful(RuntimeClosed(d, seen, luck)) && d.trace <= RuntimeClosed(d, seen, luck).trace
  {
    hide ChannelsKept, Handed, Matched;
    if seen != Agent {
      TransitionLawful(d, ByClose, seen, Agent, 0, luck);
    }
  }

  lemma RotateLawful(d: Desk, luck: Luck)
    requires Lawful(d)
    ensures Lawful(LeaseRotated(d, luck)) && d.trace <= LeaseRotated(d, luck).trace
  {
    hide ChannelsKept, Persisted;
    ChannelsStay(d, LeaseRotated(d, luck));
  }

  lemma FinishLawful(d: Desk)
    requires Lawful(d)
    ensures Lawful(Finished(d))
  {
    hide Linked;
    var f := Finished(d);
    forall c: nat
      ensures ChannelKept(f, c) && (Torn(f, c) <==> Torn(d, c))
    {
      assert ChannelKept(d, c);
    }
  }

  lemma LeasePauseLawful(d: Desk, mine: nat, luck: Luck)
    requires Lawful(d)
    ensures Lawful(LeasePaused(d, mine, luck)) && d.trace <= LeasePaused(d, mine, luck).trace
  {
    hide Linked, Handed;
    TransitionLawful(d, ByPause, Agent, Nobody, 0, luck);
    var t, p := Handed(d, ByPause, Agent, Nobody, 0, luck), LeasePaused(d, mine, luck);
    if mine in d.pausing {
      assert Torn(p, mine) <==> !Passes(d, Agent, 0, luck) && mine in d.shut by { assert ChannelKept(d, mine); }
      forall c: nat
        ensures ChannelKept(p, c) && (Torn(p, c) <==> Torn(d, c) || (c == mine && Torn(p, mine)))
      {
        assert ChannelKept(d, c);
      }
    }
  }

  lemma EventLawful(d: Desk, event: Event)
    requires Lawful(d)
    ensures Lawful(AfterEvent(d, event)) && d.trace <= AfterEvent(d, event).trace
  {
    hide Lawful;
    match event {
      case ReceiveEvent(command) => ReceiveLawful(d, command);
      case ProceedEvent(viewer, seen, luck, second) => ProceedLawful(d, viewer, seen, luck, second);
      case FinishEvent => FinishLawful(d);
      case PauseBeginEvent => PauseLawful(d);
      case PauseLeaseEvent(mine, luck) => LeasePauseLawful(d, mine, luck);
      case CloseRuntimeEvent(seen, luck) => RuntimeCloseLawful(d, seen, luck);
      case RotateEvent(luck) => RotateLawful(d, luck);
      case CloseLeaseEvent(luck) => CloseLawful(d, luck);
    }
  }

  lemma ReceiveLawful(d: Desk, command: Command)
    requires Lawful(d)
    ensures Lawful(Received(d, command))
  {
    hide ChannelsKept;
    ChannelsStay(d, Received(d, command));
  }

  lemma PauseLawful(d: Desk)
    requires Lawful(d)
    ensures Lawful(PauseBegun(d))
  {
    hide Linked;
    var p := PauseBegun(d);
    assert ChannelKept(d, d.channel + 1);
    forall c: nat
      ensures ChannelKept(p, c) && (Torn(p, c) <==> Torn(d, c))
    {
      assert ChannelKept(d, c);
    }
  }

  /** Any interleaving: the trace of effective transitions is linked and legal, so
      every command in it is effective once and raises the epoch by one, and a channel
      is closed twice if and only if a pause fails after a command has crossed it. */
  lemma {:induction false} EveryInterleavingIsLawful(d: Desk, events: seq<Event>)
    requires Lawful(d)
    ensures Lawful(AfterEvents(d, events)) && d.trace <= AfterEvents(d, events).trace
    ensures var e := AfterEvents(d, events); e.panicked <==> exists c :: Torn(e, c)
  {
    hide AfterEvent;
    if events != [] {
      EveryInterleavingIsLawful(d, events[..|events| - 1]);
      EventLawful(AfterEvents(d, events[..|events| - 1]), events[|events| - 1]);
    }
  }

  // ---------- What single events promise ----------

  /** A matched command, other than a terminate, takes effect exactly if it asks for a
      transition, the lease still has the controller it takes over from at its epoch,
      and the transition is persisted; then it is the trace's next effect. */
  lemma CommandActs(d: Desk, viewer: bool, seen: Controller, luck: Luck, second: Luck)
    requires d.handling.Some? && !d.finishing && d.handling.value.action != Terminate
    ensures var p, command := Proceeded(d, viewer, seen, luck, second), d.handling.value;
            && (p.trace != d.trace <==>
                  && command.action != Input && (command.action == Release ==> viewer) && luck.Persists()
                  && d.Held() && d.Identity().controller == Taken(command.action)
                  && (command.epoch == 0 || command.epoch == d.Identity().controlEpoch + 1))
            && (p.trace != d.trace ==>
                  && p.Held() && p.Identity().controller == Given(command.action)
                  && p.trace == d.trace + [Effect(ByCommand(command), d.Identity(), p.Identity())])
            && (p.finishing <==> command.action == Resume && p.trace != d.trace)
  {
    hide Persisted;
  }

  /** Resume and terminate release the waiting agent and never panic. */
  lemma FinishReleases(d: Desk)
    requires Lawful(d) && d.handling.Some? && d.finishing
    ensures var f := Finished(d);
            && !f.paused && f.handling.None? && f.panicked == d.panicked && (d.paused ==> d.channel in f.shut)
            && (f.crossed != d.crossed ==> d.paused && d.channel in d.pausing)
  {
  }

  /** A pause that cannot change the lease closes a closed channel exactly if a command
      has crossed it. */
  lemma FailedPausePanics(d: Desk, mine: nat, luck: Luck)
    requires Lawful(d) && mine in d.pausing && !d.panicked
    ensures var p := LeasePaused(d, mine, luck);
            && (p.panicked <==> mine in d.crossed && !Passes(d, Agent, 0, luck))
            && (!Passes(d, Agent, 0, luck) ==> mine in p.shut && !p.paused)
  {
    hide Linked, Persisted;
    assert ChannelKept(d, mine);
  }

  /** Closing the Browser takes control back to the agent exactly if the controller that
      it saw still holds it and the change is persisted. */
  lemma CloseTakesControlBack(d: Desk, seen: Controller, luck: Luck)
    requires d.Held()
    ensures var c := RuntimeClosed(d, seen, luck);
            && (c.trace != d.trace <==> seen != Agent && d.Identity().controller == seen && luck.Persists())
            && (c.trace != d.trace ==> c.Held() && c.Identity().controller == Agent)
            && (c.trace == d.trace ==> c.Held() && c.Identity() == d.Identity())
  {
    hide Persisted;
  }

  /** A command is matched if nothing else is being handled, its epochs are as its action
      demands, and it names the lease in every respect. */
  lemma ReceiveMatches(d: Desk, command: Command)
    ensures var r := Received(d, command);
            && r == d.(handling := r.handling)
            && (d.handling.Some? ==> r == d)
            && (d.handling.None? ==>
                  (r.handling == Some(command) <==>
                     && 0 < command.previous && command.epoch == command.previous + (if command.action == Input then 0 else 1)
                     && d.Held() && command.run == d.Identity().run && command.session == d.Identity().session
                     && command.sessionEpoch == d.Identity().sessionEpoch && command.attachment == d.Identity().attachment
                     && command.previous == d.Identity().controlEpoch))
            && (r.handling.Some? ==> r.handling == Some(command) || r == d)
  {
  }

  /** The first pause makes a fresh open channel, others join it. */
  lemma PausesShareAChannel(d: Desk)
    requires Lawful(d)
    ensures var p := PauseBegun(d);
            && p.paused && p.channel !in p.shut && p.trace == d.trace && p.world == d.world && p.shut == d.shut
            && (d.paused ==> p == d)
            && (!d.paused ==> d.channel < p.channel && p.pausing == d.pausing + {p.channel} && p.channel !in d.pausing)
  {
    assert forall c: nat :: ChannelKept(d, c);
    assert ChannelKept(d, d.channel + 1);
  }

  /** A pause takes control from the agent exactly if the agent has it and the change is
      persisted, and then goes on pausing. */
  lemma PauseTakesControl(d: Desk, mine: nat, luck: Luck)
    requires mine in d.pausing
    ensures var p := LeasePaused(d, mine, luck);
            && p.pausing == d.pausing - {mine}
            && (p.trace != d.trace <==> d.Held() && d.Identity().controller == Agent && luck.Persists())
            && (p.trace != d.trace ==>
                  && p.Held() && p.Identity() == d.Identity().(controller := Nobody, controlEpoch := d.Identity().controlEpoch + 1)
                  && p.trace == d.trace + [Effect(ByPause, d.Identity(), p.Identity())]
                  && p.paused == d.paused && p.shut == d.shut && p.panicked == d.panicked)
            && (p.trace == d.trace ==> mine in p.failed && !p.paused && mine in p.shut)
  {
    hide Persisted;
  }

  /** A rotation gives control to the agent under a new attachment and is recorded. */
  lemma RotationIsRecorded(d: Desk, luck: Luck)
    requires d.Held()
    ensures var r := LeaseRotated(d, luck);
            && r.Held() && r.Identity().controller == Agent && r.Identity().attachment == d.world.next
            && r.Identity().sessionEpoch == d.Identity().sessionEpoch + 1 && r.Identity().controlEpoch == d.Identity().controlEpoch + 1
            && r == d.(world := r.world, trace := d.trace + [Effect(ByRotate, d.Identity(), r.Identity())])
  {
    hide Persisted;
  }

  lemma RuntimeCloseEffect(d: Desk, seen: Controller, luck: Luck)
    requires d.Held() && !d.world.crashed
    ensures var c := RuntimeClosed(d, seen, luck);
            var took := seen != Agent && d.Identity().controller == seen && luck.Persists();
            && c.Held() && c == d.(world := c.world, trace := c.trace) && (c.world.crashed ==> seen != Agent && luck.Crashes())
            && (took ==> c.trace == d.trace + [Effect(ByClose, d.Identity(), c.Identity())] && c.Identity().controller == Agent)
            && (!took ==> c.trace == d.trace)
  {
    hide Persisted;
    TransitionCrashes(d.world, d.h, Agent, luck);
  }

  lemma LeaseCloseEffect(d: Desk, luck: Luck)
    requires d.Held()
    ensures var l := LeaseClosed(d, luck);
            && l == d.(world := l.world) && l.world.holder != Some(d.h)
            && (luck.lock == Done && luck.record == Done && luck.removal == Done ==> !l.Held())
  {
  }

  /** A terminate takes control back to the agent if it can, closes the lease unless the
      process has crashed, and lets the waiting agent go on. */
  lemma TerminateEnds(d: Desk, viewer: bool, seen: Controller, luck: Luck, second: Luck)
    requires d.Held() && !d.finishing && d.handling.Some? && d.handling.value.action == Terminate && !d.world.crashed
    ensures var p := Proceeded(d, viewer, seen, luck, second);
            var took := seen != Agent && d.Identity().controller == seen && luck.Persists();
            && p.finishing && p.handling == d.handling && p.paused == d.paused && p.shut == d.shut
            && (took ==> |p.trace| == |d.trace| + 1 && p.trace[..|d.trace|] == d.trace && p.trace[|d.trace|].cause == ByClose &&
                         p.trace[|d.trace|].before == d.Identity() && p.trace[|d.trace|].after.controller == Agent)
            && (!took ==> p.trace == d.trace)
            && ((seen == Agent || !luck.Crashes()) ==>
                  && p.world.holder != Some(d.h)
                  && (second.lock == Done && second.record == Done && second.removal == Done ==> !p.Held()))
  {
    hide RuntimeClosed, LeaseClosed;
    RuntimeCloseEffect(d, seen, luck);
    LeaseCloseEffect(RuntimeClosed(d, seen, luck), second);
  }

  lemma TransitionCrashes(w: World, h: nat, target: Controller, luck: Luck)
    requires InUse(w, h)
    ensures AfterTransition(w, h, target, luck).crashed <==> w.crashed || luck.Crashes()
  {
  }

  // ---------- A whole take-over ----------

  predicate Idle(d: Desk) { !d.world.crashed && d.Held() && d.handling.None? && !d.finishing }

  /** What the human sends at this point. */
  function Sent(action: Action, id: Identity): Command {
    Command(action, id.run, id.session, id.sessionEpoch, id.attachment, id.controlEpoch, id.controlEpoch + 1)
  }

  function Handing(id: Identity, controller: Controller): Identity {
    id.(controller := controller, controlEpoch := id.controlEpoch + 1)
  }

  /** A claim, a release or a resume that comes in its turn, undisturbed. */
  lemma InItsTurn(d: Desk, action: Action, target: Controller)
    requires Idle(d) && 0 < d.Identity().controlEpoch
    requires || (action == Claim && d.Identity().controller == Nobody && target == Human)
             || (action == Release && d.Identity().controller == Human && target == Nobody)
             || (action == Resume && d.Identity().controller == Nobody && target == Agent)
    ensures var command := Sent(action, d.Identity());
            var p := AfterEvent(AfterEvent(d, ReceiveEvent(command)), ProceedEvent(true, Agent, SMOOTH, SMOOTH));
            && !p.world.crashed && p.Held() && p.Identity() == Handing(d.Identity(), target)
            && p == d.(world := p.world, trace := d.trace + [Effect(ByCommand(command), d.Identity(), p.Identity())],
                       handling := if action == Resume then Some(command) else None, finishing := action == Resume)
  {
    HandOverActivates(d.world, d.h, target, SMOOTH);
    hide AfterTransition;
  }

  lemma PauseInItsTurn(d: Desk)
    requires Idle(d) && !d.paused && d.Identity().controller == Agent && d.channel + 1 !in d.pausing
    ensures var p := AfterEvent(AfterEvent(d, PauseBeginEvent), PauseLeaseEvent(d.channel + 1, SMOOTH));
            && !p.world.crashed && p.Held() && p.Identity() == Handing(d.Identity(), Nobody)
            && p == d.(world := p.world, trace := d.trace + [Effect(ByPause, d.Identity(), p.Identity())],
                       paused := true, channel := d.channel + 1)
  {
    HandOverActivates(d.world, d.h, Nobody, SMOOTH);
    hide AfterTransition;
    assert d.pausing + {d.channel + 1} - {d.channel + 1} == d.pausing;
  }

  /** The events of a pause, a claim, a release and a resume. */
  function TakeOver(channel: nat, id: Identity): seq<Event> {
    var proceed := ProceedEvent(true, Agent, SMOOTH, SMOOTH);
    var paused := Handing(id, Nobody);
    var claimed := Handing(paused, Human);
    var released := Handing(claimed, Nobody);
    [PauseBeginEvent] + [PauseLeaseEvent(channel + 1, SMOOTH)] + [ReceiveEvent(Sent(Claim, paused))] + [proceed]
    + [ReceiveEvent(Sent(Release, claimed))] + [proceed] + [ReceiveEvent(Sent(Resume, released))] + [proceed] + [FinishEvent]
  }

  /** From wherever the agent has control, a human can take it over and give it back:
      four transitions later the agent has it again, nobody waits, and all is well. */
  lemma TakeOverSucceeds(d: Desk)
    requires Lawful(d) && Idle(d) && !d.paused && d.Identity().controller == Agent
    ensures var e := AfterEvents(d, TakeOver(d.channel, d.Identity()));
            && Idle(e) && !e.paused && e.shut == d.shut + {d.channel + 1} && e.panicked == d.panicked
            && e.Identity() == d.Identity().(controlEpoch := d.Identity().controlEpoch + 4)
            && |e.trace| == |d.trace| + 4 && e.trace[..|d.trace|] == d.trace && e.trace[|d.trace|].cause == ByPause
            && e.trace[|d.trace| + 1].after.controller == Human && e.trace[|d.trace| + 3].after == e.Identity()
  {
    hide AfterEvents, AfterEvent, Lawful;
    ChannelIsFresh(d);
    PauseInItsTurn(d);
    var p := AfterEvent(AfterEvent(d, PauseBeginEvent), PauseLeaseEvent(d.channel + 1, SMOOTH));
    InItsTurn(p, Claim, Human);
    var proceed := ProceedEvent(true, Agent, SMOOTH, SMOOTH);
    var q := AfterEvent(AfterEvent(p, ReceiveEvent(Sent(Claim, p.Identity()))), proceed);
    InItsTurn(q, Release, Nobody);
    var r := AfterEvent(AfterEvent(q, ReceiveEvent(Sent(Release, q.Identity()))), proceed);
    InItsTurn(r, Resume, Agent);
    var s := AfterEvent(AfterEvent(r, ReceiveEvent(Sent(Resume, r.Identity()))), proceed);
    TakeOverUnrolls(d, p, q, r);
    ResumeFinishes(s, d.channel + 1);
    assert d.channel + 1 !in d.shut;
  }

  lemma ChannelIsFresh(d: Desk)
    requires Lawful(d)
    ensures d.channel + 1 !in d.pausing && d.channel + 1 !in d.shut
  {
    assert ChannelKept(d, d.channel + 1);
  }

  lemma ResumeFinishes(d: Desk, channel: nat)
    requires d.handling.Some? && d.finishing && d.paused && d.channel == channel && !d.world.crashed
    requires channel !in d.shut && channel !in d.pausing
    ensures AfterEvent(d, FinishEvent) == d.(handling := None, finishing := false, paused := false, shut := d.shut + {channel})
  {
  }

  lemma TakeOverUnrolls(d: Desk, p: Desk, q: Desk, r: Desk)
    requires d.Held() && p.Held() && q.Held() && r.Held()
    requires p.Identity() == Handing(d.Identity(), Nobody) && q.Identity() == Handing(p.Identity(), Human)
    requires r.Identity() == Handing(q.Identity(), Nobody)
    requires var proceed := ProceedEvent(true, Agent, SMOOTH, SMOOTH);
             && p == AfterEvent(AfterEvent(d, PauseBeginEvent), PauseLeaseEvent(d.channel + 1, SMOOTH))
             && q == AfterEvent(AfterEvent(p, ReceiveEvent(Sent(Claim, p.Identity()))), proceed)
             && r == AfterEvent(AfterEvent(q, ReceiveEvent(Sent(Release, q.Identity()))), proceed)
    ensures AfterEvents(d, TakeOver(d.channel, d.Identity())) ==
              AfterEvent(AfterEvent(AfterEvent(r, ReceiveEvent(Sent(Resume, r.Identity()))),
                                    ProceedEvent(true, Agent, SMOOTH, SMOOTH)), FinishEvent)
  {
    hide AfterEvents, AfterEvent;
    var proceed := ProceedEvent(true, Agent, SMOOTH, SMOOTH);
    var two := [PauseBeginEvent] + [PauseLeaseEvent(d.channel + 1, SMOOTH)];
    var four := two + [ReceiveEvent(Sent(Claim, p.Identity()))] + [proceed];
    var six := four + [ReceiveEvent(Sent(Release, q.Identity()))] + [proceed];
    NoEvents(d);
    assert [] + [PauseBeginEvent] == [PauseBeginEvent];
    TwoMore(d, [], PauseBeginEvent, PauseLeaseEvent(d.channel + 1, SMOOTH));
    TwoMore(d, two, ReceiveEvent(Sent(Claim, p.Identity())), proceed);
    TwoMore(d, four, ReceiveEvent(Sent(Release, q.Identity())), proceed);
    TwoMore(d, six, ReceiveEvent(Sent(Resume, r.Identity())), proceed);
    OneMore(d, six + [ReceiveEvent(Sent(Resume, r.Identity()))] + [proceed], FinishEvent);
  }

  lemma TwoMore(d: Desk, events: seq<Event>, first: Event, second: Event)
    ensures AfterEvents(d, events + [first] + [second]) == AfterEvent(AfterEvent(AfterEvents(d, events), first), second)
  {
    hide AfterEvents, AfterEvent;
    OneMore(d, events, first);
    OneMore(d, events + [first], second);
  }

  // ---------- The program ----------

  class Control {
    const root: Root
    const h: nat
    var handling: Option<Command>
    var finishing: bool
    var paused: bool
    var channel: nat
    var shut: set<nat>
    var pausing: set<nat>
    var panicked: bool
    ghost var trace: seq<Effect>
    ghost var crossed: set<nat>
    ghost var failed: set<nat>

    constructor (root: Root, h: nat)
      requires root.Valid()
      ensures this.root == root && View() == Desk(root.View(), h, None, false, false, 0, {}, {}, false, [], {}, {})
      ensures Lawful(View())
    {
      this.root, this.h := root, h;
      handling, finishing, paused, channel, shut, pausing, panicked := None, false, false, 0, {}, {}, false;
      trace, crossed, failed := [], {}, {};
    }

    ghost function View(): Desk
      reads this, root
    {
      Desk(root.View(), h, handling, finishing, paused, channel, shut, pausing, panicked, trace, crossed, failed)
    }

    method Transition(ghost cause: Cause, expected: Controller, target: Controller, epoch: nat, luck: Luck) returns (ok: bool)
      requires root.Valid()
      modifies root, `trace
      ensures root.Valid() && View() == Handed(old(View()), cause, expected, target, epoch, luck)
      ensures ok <==> Passes(old(View()), expected, epoch, luck)
    {
      hide Persisted, Reanchored;
      ghost var d := View();
      ok := root.TransitionController(h, expected, target, epoch, luck);
      if ok {
        trace := trace + [Effect(cause, d.Identity(), root.noted[h].lease.identity)];
      }
    }

    // ---------- The command loop ----------

    /** One command at a time is matched against the lease. */
    method Receive(command: Command)
      requires root.Valid()
      modifies `handling
      ensures View() == Received(old(View()), command)
    {
      if handling.None? && command.Valid() && h in root.leases && h in root.begun && command.Names(root.leases[h].identity) {
        handling := Some(command);
      }
    }

    /** The matched command acts. `viewer` is the Runtime's answer to a release,
        `seen` the controller found when closing the Browser, if it was in use. */
    method Proceed(viewer: bool, seen: Controller, luck: Luck, second: Luck)
      requires root.Valid() && !root.crashed
      modifies root, `trace, `handling, `finishing
      ensures root.Valid() && View() == Proceeded(old(View()), viewer, seen, luck, second)
    {
      hide Handed, LeaseClosed;
      if handling.None? || finishing {
        return;
      }
      if handling.value.action == Terminate {
        CloseRuntime(seen, luck);
        if !root.crashed {
          CloseLease(second);
        }
        finishing := true;
      } else {
        var ok := Act(handling.value, viewer, luck);
        if ok && handling.value.action == Resume {
          finishing := true;
        } else {
          handling := None;
        }
      }
    }

    method Act(command: Command, viewer: bool, luck: Luck) returns (ok: bool)
      requires root.Valid() && command.action != Terminate
      modifies root, `trace
      ensures root.Valid() && View() == Acted(old(View()), command, viewer, luck)
      ensures ok <==> Acts(old(View()), command, viewer, luck)
    {
      hide Handed;
      ok := false;
      match command.action {
        case Claim => ok := Transition(ByCommand(command), Nobody, Human, command.epoch, luck);
        case Release =>
          if viewer {
            ok := Transition(ByCommand(command), Human, Nobody, command.epoch, luck);
          }
        case Resume => ok := Transition(ByCommand(command), Nobody, Agent, command.epoch, luck);
        case Input =>
      }
    }

    method Finish()
      modifies `handling, `finishing, `paused, `shut, `panicked, `crossed
      ensures View() == Finished(old(View()))
    {
      if handling.None? || !finishing {
        return;
      }
      if paused {
        crossed := if channel in pausing then crossed + {channel} else crossed;
        paused := false;
        CloseChannel(channel);
      }
      handling, finishing := None, false;
    }

    method CloseChannel(which: nat)
      modifies `shut, `panicked
      ensures View() == ChannelClosed(old(View()), which)
    {
      panicked := panicked || which in shut;
      shut := shut + {which};
    }

    // ---------- The agent's side ----------

    method PauseBegin() returns (mine: nat)
      modifies `paused, `channel, `pausing
      ensures View() == PauseBegun(old(View())) && mine == channel
    {
      if !paused {
        paused, channel := true, channel + 1;
        pausing := pausing + {channel};
      }
      mine := channel;
    }

    method PauseLease(mine: nat, luck: Luck)
      requires root.Valid()
      modifies root, `trace, `paused, `shut, `panicked, `pausing, `failed
      ensures root.Valid() && View() == LeasePaused(old(View()), mine, luck)
    {
      hide Handed;
      if mine !in pausing {
        return;
      }
      var ok := Transition(ByPause, Agent, Nobody, 0, luck);
      pausing := pausing - {mine};
      if !ok {
        paused, failed := false, failed + {mine};
        CloseChannel(mine);
      }
    }

    method CloseRuntime(seen: Controller, luck: Luck)
      requires root.Valid()
      modifies root, `trace
      ensures root.Valid() && View() == RuntimeClosed(old(View()), seen, luck)
    {
      hide Handed;
      if seen != Agent {
        var _ := Transition(ByClose, seen, Agent, 0, luck);
      }
    }

    method Rotate(luck: Luck)
      requires root.Valid()
      modifies root, `trace
      ensures root.Valid() && View() == LeaseRotated(old(View()), luck)
    {
      if h in root.leases && h in root.begun {
        ghost var d := View();
        var _ := root.Rotate(h, luck);
        trace := trace + [Effect(ByRotate, d.Identity(), root.noted[h].lease.identity)];
      }
    }

    method CloseLease(luck: Luck)
      requires root.Valid()
      modifies root
      ensures root.Valid() && View() == LeaseClosed(old(View()), luck)
    {
      if h in root.leases && h in root.begun {
        var _ := root.Close(h, luck);
      }
    }

    method Step(event: Event)
      requires root.Valid()
      modifies this, root
      ensures root.Valid() && View() == AfterEvent(old(View()), event)
    {
      hide Received, Proceeded, Finished, PauseBegun, LeasePaused, RuntimeClosed, LeaseRotated, LeaseClosed;
      if root.crashed {
        return;
      }
      match event {
        case ReceiveEvent(command) => Receive(command);
        case ProceedEvent(viewer, seen, luck, second) => Proceed(viewer, seen, luck, second);
        case FinishEvent => Finish();
        case PauseBeginEvent => var _ := PauseBegin();
        case PauseLeaseEvent(mine, luck) => PauseLease(mine, luck);
        case CloseRuntimeEvent(seen, luck) => CloseRuntime(seen, luck);
        case RotateEvent(luck) => Rotate(luck);
        case CloseLeaseEvent(luck) => CloseLease(luck);
      }
    }

    /** Any interleaving of events leads where they lead one by one. */
    method Run(events: seq<Event>)
      requires root.Valid() && Lawful(View())
      modifies this, root
      ensures root.Valid() && View() == AfterEvents(old(View()), events)
      ensures Lawful(View()) && old(trace) <= trace
      ensures panicked <==> exists c :: Torn(View(), c)
    {
      ghost var d := View();
      var i := 0;
      while i < |events|
        invariant 0 <= i <= |events| && root.Valid() && View() == AfterEvents(d, events[..i])
      {
        Step(events[i]);
        assert events[..i + 1][..i] == events[..i];
        i := i + 1;
      }
      assert events[..|events|] == events;
      EveryInterleavingIsLawful(d, events);
    }
  }

  lemma OneMore(d: Desk, events: seq<Event>, event: Event)
    ensures AfterEvents(d, events + [event]) == AfterEvent(AfterEvents(d, events), event)
  {
    assert (events + [event])[..|events|] == events;
  }

  function Crossing(channel: nat, command: Command): seq<Event> {
    [PauseBeginEvent] + [ReceiveEvent(command)] + [ProceedEvent(true, Agent, SMOOTH, SMOOTH)] + [FinishEvent]
    + [PauseLeaseEvent(channel + 1, SMOOTH)]
  }

  /** The terminate is matched, ends the lease and closes the pause's channel. */
  function Crossed(d: Desk, command: Command): Desk {
    Finished(LeaseClosed(PauseBegun(d).(handling := Some(command)), SMOOTH).(finishing := true))
  }

  lemma TerminateCrosses(d: Desk, command: Command)
    requires !d.world.crashed && d.Held() && d.handling.None? && !d.finishing && !d.paused
    requires command.Valid() && command.action == Terminate && command.Names(d.Identity())
    ensures AfterEvents(d, Crossing(d.channel, command)[..4]) == Crossed(d, command)
  {
    hide AfterEvents, AfterClose;
    var one, two := PauseBegun(d), PauseBegun(d).(handling := Some(command));
    NoEvents(d);
    OneMore(d, [], PauseBeginEvent);
    OneMore(d, [PauseBeginEvent], ReceiveEvent(command));
    OneMore(d, [PauseBeginEvent] + [ReceiveEvent(command)], ProceedEvent(true, Agent, SMOOTH, SMOOTH));
    OneMore(d, [PauseBeginEvent] + [ReceiveEvent(command)] + [ProceedEvent(true, Agent, SMOOTH, SMOOTH)], FinishEvent);
    CloseEndsLease(two);
    assert [] + [PauseBeginEvent] == [PauseBeginEvent];
    assert Crossing(d.channel, command)[..4]
        == [PauseBeginEvent] + [ReceiveEvent(command)] + [ProceedEvent(true, Agent, SMOOTH, SMOOTH)] + [FinishEvent];
  }

  /** A terminate that is handled while a pause is being set up closes the pause's
      channel; the pause then fails on the closed lease and closes it again. */
  lemma TerminateDuringPausePanics(d: Desk, command: Command)
    requires !d.world.crashed && d.Held() && d.handling.None? && !d.finishing && !d.paused
    requires command.Valid() && command.action == Terminate && command.Names(d.Identity())
    ensures AfterEvents(d, Crossing(d.channel, command)).panicked
  {
    hide AfterEvents, AfterClose;
    var c := Crossed(d, command);
    TerminateCrosses(d, command);
    CloseEndsLease(PauseBegun(d).(handling := Some(command)));
    OneMore(d, Crossing(d.channel, command)[..4], PauseLeaseEvent(d.channel + 1, SMOOTH));
    assert Crossing(d.channel, command)[..4] + [PauseLeaseEvent(d.channel + 1, SMOOTH)] == Crossing(d.channel, command);
  }

  lemma NoEvents(d: Desk)
    ensures AfterEvents(d, []) == d
  {
  }

  lemma CloseEndsLease(d: Desk)
    requires d.Held() && !d.world.crashed
    ensures !LeaseClosed(d, SMOOTH).Held() && !LeaseClosed(d, SMOOTH).world.crashed
  {
  }

  /** And a Run can come to that. */
  method RunIntoPanic(attachment: Attachment, policy: Policy) returns (control: Control)
    ensures fresh(control) && control.panicked
  {
    var root := new Root(map[], 0);
    var _, h := root.Acquire(7, 0, attachment, policy, {}, SMOOTH);
    control := new Control(root, h);
    var identity := root.leases[h].identity;
    var command := Command(Terminate, identity.run, identity.session, identity.sessionEpoch, identity.attachment,
                           identity.controlEpoch, identity.controlEpoch + 1);
    TerminateDuringPausePanics(control.View(), command);
    control.Run(Crossing(control.channel, command));
  }
}

/** The fenced Browser lease: session and control epochs that are persisted before
    an identity is activated, through failed writes, process crashes and restarts.
    A lease whose close failed has given up the root and is still usable, so other
    Runs may hold leases beside it. */
module BrowserLease {
  import opened Basics

  datatype Controller = Agent | Nobody | Human

  datatype Policy = Policy(mode: nat, generation: nat, origins: nat)

  datatype Attachment = Attachment(session: nat, epoch: nat, id: nat)

  /** A session's file. Files of the first version have no policy. */
  datatype State = State(key: nat, session: nat, sessionEpoch: nat, controlEpoch: nat, controller: Controller,
                         attachment: Option<Attachment>, policy: Option<Policy>)

  datatype Identity = Identity(run: nat, session: nat, sessionEpoch: nat, attachment: nat, controlEpoch: nat,
                               controller: Controller, policy: Policy)

  datatype Lease = Lease(state: State, identity: Identity)
  {
    predicate Agrees() {
      && identity.session == state.session && identity.sessionEpoch == state.sessionEpoch
      && identity.controlEpoch == state.controlEpoch && identity.controller == state.controller
      && Some(identity.policy) == state.policy
    }
  }

  /** A lease in memory. `owing` if its last controller transition failed after its
      identity had been activated and was rolled back. `anchor` is the activation of
      its session that it last made or, when it was taken up, last saw. `begun` once
      it has been persisted for the first time. */
  datatype Held = Held(lease: Lease, owing: bool, anchor: Option<nat>, begun: bool)

  /** An identity that was written to the active lease file. `overtaken` if the
      session had been activated since its lease's anchor, `torn` if a lease that was
      behind had persisted the session before. */
  datatype Activation = Activation(identity: Identity, owing: bool, overtaken: bool, torn: bool)

  /** What one file operation does. An error or a crash may leave it done. */
  datatype Outcome = Done | Failed(done: bool) | Crash(done: bool)
  {
    predicate Landed() { this == Done || done }
  }

  /** How the steps of one operation turn out: taking the authority lock, the
      state, active and per-Run files, and the removal of the active file, which is
      read first. */
  datatype Luck = Luck(lock: Outcome, state: Outcome, active: Outcome, record: Outcome, removal: Outcome)
  {
    predicate Persists() { Records() && record == Done }

    /** The state file is written. */
    predicate Writes() { lock == Done && state.Landed() }

    /** The identity reaches the active file. */
    predicate Activates() { lock == Done && state == Done && active.Landed() }

    /** The per-Run file is reached. */
    predicate Records() { lock == Done && state == Done && active == Done }

    predicate Crashes() {
      || lock.Crash? || (lock == Done && state.Crash?) || (lock == Done && state == Done && active.Crash?)
      || (Records() && (record.Crash? || (record.Failed? && removal.Crash?)))
    }

    /** A close that removes what it should. */
    predicate Closes() { lock == Done && record == Done && removal == Done }
  }

  const SMOOTH := Luck(Done, Done, Done, Done, Done)
  /** Only the Run's own file fails. */
  const RECORD_FAILS := Luck(Done, Done, Done, Failed(false), Done)
  /** The authority lock is not to be had. */
  const LOCK_FAILS := Luck(Failed(false), Done, Done, Done, Done)

  /** Everything on disk and in memory, with the history of activations and the
      sessions that a lease that was behind has persisted. `holder` has the root. */
  datatype World = World(sessions: map<nat, State>, active: Option<Identity>, runs: map<nat, Identity>,
                         leases: map<nat, Held>, holder: Option<nat>, next: nat, crashed: bool,
                         history: seq<Activation>, torn: set<nat>)

  // ---------- Taking up a session ----------

  function Opened(key: nat, session: nat, policy: Policy): State {
    State(key, session, 1, 0, Agent, None, Some(policy))
  }

  /** The state a Run continues from: a higher control epoch, and a higher session
      epoch for each reason not to trust what the former Run left. */
  function Continued(file: State, attachment: Attachment, policy: Policy): State {
    var upgraded := if file.policy.None? then 1 else 0;
    var moved := if file.attachment.Some? && file.attachment.value != attachment then 1 else 0;
    var changed := if file.policy.Some? && file.policy.value != policy then 1 else 0;
    file.(sessionEpoch := file.sessionEpoch + upgraded + moved + changed,
          controlEpoch := file.controlEpoch + 1,
          controller := Agent,
          attachment := Some(attachment),
          policy := Some(policy))
  }

  /** A session epoch is kept only for the same policy on the same attachment. */
  lemma EpochIsKeptForTheSame(file: State, attachment: Attachment, policy: Policy)
    ensures Continued(file, attachment, policy).sessionEpoch == file.sessionEpoch <==>
              file.policy == Some(policy) && (file.attachment.None? || file.attachment.value == attachment)
    ensures Continued(file, attachment, policy).sessionEpoch >= file.sessionEpoch
    ensures Continued(file, attachment, policy).controlEpoch == file.controlEpoch + 1
  {
  }

  // ---------- Fencing ----------

  /** The control epoch is above those of the session's first `n` activations. */
  predicate Newer(history: seq<Activation>, n: nat, identity: Identity)
    requires n <= |history|
  {
    forall i :: 0 <= i < n && history[i].identity.session == identity.session ==>
      history[i].identity.controlEpoch < identity.controlEpoch
  }

  /** One identity of a session may follow another: no epoch goes back, and a
      session epoch has one policy. */
  predicate Follows(a: Identity, b: Identity) {
    && a.controlEpoch <= b.controlEpoch && a.sessionEpoch <= b.sessionEpoch
    && (a.sessionEpoch == b.sessionEpoch ==> a.policy == b.policy)
  }

  predicate NotOlder(history: seq<Activation>, n: nat, identity: Identity)
    requires n <= |history|
  {
    forall i :: 0 <= i < n && history[i].identity.session == identity.session ==> Follows(history[i].identity, identity)
  }

  /** The session's last activation among the first `n`. */
  function LastBefore(history: seq<Activation>, n: nat, session: nat): (last: Option<nat>)
    requires n <= |history|
    ensures last.Some? ==> last.value < n && history[last.value].identity.session == session
    ensures forall i :: (if last.Some? then last.value + 1 else 0) <= i < n ==> history[i].identity.session != session
  {
    if n == 0 then None
    else if history[n - 1].identity.session == session then Some(n - 1)
    else LastBefore(history, n - 1, session)
  }

  function Last(history: seq<Activation>, session: nat): Option<nat> {
    LastBefore(history, |history|, session)
  }

  /** Until a lease that is behind persists the session: an activation by a lease that
      was not overtaken follows all earlier ones, above them exactly if the lease
      was not owing; and any activation is decided by the session's last one. */
  predicate FencedAt(history: seq<Activation>, j: nat) {
    j < |history| && !history[j].torn ==>
      var a := history[j];
      var last := LastBefore(history, j, a.identity.session);
      && (!a.overtaken ==> NotOlder(history, j, a.identity) && (Newer(history, j, a.identity) <==> !a.owing))
      && (NotOlder(history, j, a.identity) <==> last.None? || Follows(history[last.value].identity, a.identity))
      && (Newer(history, j, a.identity) <==> last.None? || history[last.value].identity.controlEpoch < a.identity.controlEpoch)
  }

  ghost predicate Fenced(history: seq<Activation>) {
    forall j :: FencedAt(history, j)
  }

  /** In a session that is not torn every activation follows all earlier ones. */
  predicate Orderly(history: seq<Activation>, torn: set<nat>, i: nat) {
    i < |history| && history[i].identity.session !in torn ==> !history[i].torn && NotOlder(history, i, history[i].identity)
  }

  /** The session's last activation does not precede this identity. */
  predicate Behind(history: seq<Activation>, identity: Identity) {
    var last := Last(history, identity.session);
    last.Some? && !Follows(history[last.value].identity, identity)
  }

  predicate Issued(history: seq<Activation>, next: nat, i: nat) {
    i < |history| ==> history[i].identity.session < next
  }

  /** In a session that is not torn the last activation decides for all of them. */
  lemma LastDecides(history: seq<Activation>, torn: set<nat>, identity: Identity)
    requires Fenced(history) && (forall i :: Orderly(history, torn, i)) && identity.session !in torn
    ensures var last := Last(history, identity.session);
            && (NotOlder(history, |history|, identity) <==> last.None? || Follows(history[last.value].identity, identity))
            && (Newer(history, |history|, identity) <==>
                  last.None? || history[last.value].identity.controlEpoch < identity.controlEpoch)
  {
    var last := Last(history, identity.session);
    if last.Some? {
      var l := last.value;
      forall i | 0 <= i < l && history[i].identity.session == identity.session
        ensures Follows(history[i].identity, history[l].identity)
      {
        assert FencedAt(history, l) && Orderly(history, torn, l);
      }
    }
  }

  /** Two activations of a session that is not torn. */
  lemma FencedPairs(history: seq<Activation>, torn: set<nat>, i: nat, j: nat)
    requires Fenced(history) && (forall k :: Orderly(history, torn, k)) && i < j < |history|
    requires history[i].identity.session == history[j].identity.session && history[i].identity.session !in torn
    ensures Follows(history[i].identity, history[j].identity)
    ensures !history[j].overtaken && !history[j].owing ==> history[i].identity.controlEpoch < history[j].identity.controlEpoch
  {
    assert FencedAt(history, j) && Orderly(history, torn, j);
  }

  // ---------- What every step keeps ----------

  /** A file is as far as its session's last activation. */
  predicate Covers(file: State, history: seq<Activation>) {
    var last := Last(history, file.session);
    last.Some? ==>
      var a := history[last.value].identity;
      && a.controlEpoch <= file.controlEpoch && a.sessionEpoch <= file.sessionEpoch
      && (a.sessionEpoch == file.sessionEpoch ==> Some(a.policy) == file.policy)
  }

  /** No other file is of this session. */
  ghost predicate Apart(sessions: map<nat, State>, state: State) {
    forall key :: key in sessions && key != state.key ==> sessions[key].session != state.session
  }

  ghost predicate FileKept(w: World, key: nat) {
    key in w.sessions ==>
      && w.sessions[key].session < w.next && (w.sessions[key].session !in w.torn ==> Covers(w.sessions[key], w.history))
      && forall other :: other in w.sessions && other != key ==> w.sessions[other].session != w.sessions[key].session
  }

  /** What a lease knows of its anchor, when `lease` is to be persisted next. */
  predicate Anchored(history: seq<Activation>, anchor: Option<nat>, lease: Lease, owing: bool) {
    match anchor
    case None => !owing
    case Some(k) =>
      && k < |history| && history[k].identity.session == lease.state.session
      && history[k].identity.controlEpoch <= lease.state.controlEpoch
      && (owing <==> history[k].identity.controlEpoch == lease.state.controlEpoch)
      && history[k].identity.sessionEpoch <= lease.state.sessionEpoch
      && (history[k].identity.sessionEpoch == lease.state.sessionEpoch ==> history[k].identity.policy == lease.identity.policy)
  }

  /** The lease as its next persist will have it, as far as epochs are concerned. */
  function Upcoming(held: Held): Lease {
    if held.begun then HandedOver(held.lease, held.lease.identity.controller) else held.lease
  }

  ghost predicate LeaseKept(w: World, h: nat) {
    h in w.leases ==>
      var held := w.leases[h];
      && held.lease.Agrees() && held.lease.state.session < w.next && h < w.next && Apart(w.sessions, held.lease.state)
      && (held.lease.state.session !in w.torn ==> Anchored(w.history, held.anchor, Upcoming(held), held.owing))
      && forall g :: g in w.leases && w.leases[g].lease.state.session == held.lease.state.session ==>
           w.leases[g].lease.state.key == held.lease.state.key
  }

  /** Only the last activated identity can be in the active file. */
  predicate ActiveKept(w: World) {
    w.active.Some? ==> w.history != [] && w.active.value == w.history[|w.history| - 1].identity
  }

  ghost predicate Sound(w: World) {
    && Fenced(w.history) && (forall i :: Orderly(w.history, w.torn, i)) && (forall i :: Issued(w.history, w.next, i))
    && (forall key :: FileKept(w, key)) && (forall h :: LeaseKept(w, h)) && ActiveKept(w)
  }

  // ---------- Persisting ----------

  /** The session has been activated since the lease's anchor. */
  predicate Overtaken(w: World, h: nat)
    requires h in w.leases
  {
    Last(w.history, w.leases[h].lease.state.session) != w.leases[h].anchor
  }

  /** State first, then the active lease, then the Run's own lease. `lease` is what
      the lease `h` has become in memory. */
  function Persisted(w: World, h: nat, lease: Lease, luck: Luck): World
    requires h in w.leases
  {
    var session := lease.state.session;
    w.(sessions := if luck.Writes() then w.sessions[lease.state.key := lease.state] else w.sessions,
       history := if luck.Activates()
                  then w.history + [Activation(lease.identity, w.leases[h].owing, Overtaken(w, h), session in w.torn)]
                  else w.history,
       torn := if luck.Writes() && Behind(w.history, lease.identity) then w.torn + {session} else w.torn,
       active := if luck.Records() && luck.record.Failed? && luck.removal.Landed() then None
                 else if luck.Activates() then Some(lease.identity) else w.active,
       runs := if luck.Records() && luck.record.Landed() then w.runs[lease.identity.run := lease.identity] else w.runs,
       crashed := w.crashed || luck.Crashes())
  }

  lemma NewerStays(history: seq<Activation>, longer: seq<Activation>, n: nat, identity: Identity)
    requires n <= |history| && history <= longer
    ensures Newer(longer, n, identity) <==> Newer(history, n, identity)
    ensures NotOlder(longer, n, identity) <==> NotOlder(history, n, identity)
  {
    assert forall i :: 0 <= i < n ==> longer[i] == history[i];
    if Newer(longer, n, identity) {
      forall i | 0 <= i < n && history[i].identity.session == identity.session
        ensures history[i].identity.controlEpoch < identity.controlEpoch
      {
        assert longer[i] == history[i];
      }
    }
    if NotOlder(longer, n, identity) {
      forall i | 0 <= i < n && history[i].identity.session == identity.session
        ensures Follows(history[i].identity, identity)
      {
        assert longer[i] == history[i];
      }
    }
  }

  lemma {:induction false} LastStays(history: seq<Activation>, longer: seq<Activation>, n: nat, session: nat)
    requires n <= |history| && history <= longer
    ensures LastBefore(longer, n, session) == LastBefore(history, n, session)
  {
    if n > 0 {
      assert longer[n - 1] == history[n - 1];
      LastStays(history, longer, n - 1, session);
    }
  }

  lemma LastAfter(history: seq<Activation>, a: Activation, session: nat)
    ensures Last(history + [a], session) == if a.identity.session == session then Some(|history|) else Last(history, session)
  {
    LastStays(history, history + [a], |history|, session);
  }

  lemma FenceStays(history: seq<Activation>, longer: seq<Activation>, j: nat)
    requires j < |history| && history <= longer && FencedAt(history, j)
    ensures FencedAt(longer, j)
  {
    assert longer[j] == history[j];
    NewerStays(history, longer, j, history[j].identity);
    LastStays(history, longer, j, history[j].identity.session);
    var last := LastBefore(history, j, history[j].identity.session);
    assert last.Some? ==> longer[last.value] == history[last.value];
  }

  /** The next activation of a session is fenced: by its anchor where its lease has
      not been overtaken, by the last activation in any case. */
  lemma ActivationIsFenced(history: seq<Activation>, torn: set<nat>, anchor: Option<nat>, lease: Lease, owing: bool)
    requires Fenced(history) && (forall i :: Orderly(history, torn, i)) && lease.Agrees()
    requires lease.state.session !in torn ==> Anchored(history, anchor, lease, owing)
    ensures var session := lease.state.session;
            Fenced(history + [Activation(lease.identity, owing, Last(history, session) != anchor, session in torn)])
  {
    var session := lease.state.session;
    var longer := history + [Activation(lease.identity, owing, Last(history, session) != anchor, session in torn)];
    if session !in torn {
      LastDecides(history, torn, lease.identity);
      NewerStays(history, longer, |history|, lease.identity);
      LastStays(history, longer, |history|, session);
      var last := Last(history, session);
      assert last.Some? ==> longer[last.value] == history[last.value];
    }
    forall j: nat
      ensures FencedAt(longer, j)
    {
      if j < |history| {
        assert FencedAt(history, j);
        FenceStays(history, longer, j);
      }
    }
  }

  /** `lease` may be persisted as what `h` has become. */
  ghost predicate Moves(w: World, h: nat, lease: Lease) {
    && h in w.leases && lease.Agrees()
    && lease.state.key == w.leases[h].lease.state.key && lease.state.session == w.leases[h].lease.state.session
    && (lease.state.session !in w.torn ==> Anchored(w.history, w.leases[h].anchor, lease, w.leases[h].owing))
  }

  lemma HistoryAfterPersist(w: World, h: nat, lease: Lease, luck: Luck)
    requires Sound(w) && Moves(w, h, lease)
    ensures var p := Persisted(w, h, lease, luck);
            && Fenced(p.history) && (forall i :: Orderly(p.history, p.torn, i)) && (forall i :: Issued(p.history, p.next, i))
            && ActiveKept(p)
  {
    var p := Persisted(w, h, lease, luck);
    assert LeaseKept(w, h);
    if luck.Activates() {
      ActivationIsFenced(w.history, w.torn, w.leases[h].anchor, lease, w.leases[h].owing);
      LastStays(w.history, p.history, |w.history|, lease.state.session);
    }
    forall i: nat
      ensures Orderly(p.history, p.torn, i) && Issued(p.history, p.next, i)
    {
      assert Orderly(w.history, w.torn, i) && Issued(w.history, w.next, i) && FencedAt(p.history, i);
      if i < |w.history| {
        assert p.history[i] == w.history[i];
        NewerStays(w.history, p.history, i, w.history[i].identity);
      }
    }
  }

  /** A persist tears a session that is not torn exactly if it writes the state of a
      lease that is behind; and what it activates follows all earlier activations of the
      session exactly if it does not. */
  lemma TornExactly(w: World, h: nat, lease: Lease, luck: Luck)
    requires Sound(w) && Moves(w, h, lease) && lease.state.session !in w.torn
    ensures var p := Persisted(w, h, lease, luck);
            && (lease.state.session in p.torn <==> luck.Writes() && Behind(w.history, lease.identity))
            && (luck.Activates() ==>
                  (NotOlder(p.history, |w.history|, lease.identity) <==> lease.state.session !in p.torn))
            && (!Overtaken(w, h) ==> lease.state.session !in p.torn)
  {
    var p := Persisted(w, h, lease, luck);
    LastDecides(w.history, w.torn, lease.identity);
    NewerStays(w.history, p.history, |w.history|, lease.identity);
  }

  lemma FileAfterPersist(w: World, h: nat, lease: Lease, luck: Luck, key: nat)
    requires Sound(w) && Moves(w, h, lease)
    ensures FileKept(Persisted(w, h, lease, luck), key)
  {
    hide Fenced;
    var p := Persisted(w, h, lease, luck);
    assert LeaseKept(w, h) && FileKept(w, key) && FileKept(w, lease.state.key);
    assert forall other :: other in w.sessions ==> FileKept(w, other);
    if key in p.sessions && luck.Activates() {
      LastAfter(w.history, p.history[|w.history|], p.sessions[key].session);
    }
  }

  lemma LeaseAfterPersist(w: World, h: nat, lease: Lease, luck: Luck, g: nat)
    requires Sound(w) && Moves(w, h, lease)
    ensures LeaseKept(Persisted(w, h, lease, luck), g)
  {
    hide Fenced;
    assert LeaseKept(w, h) && LeaseKept(w, g);
  }

  /** Persisting keeps everything, whatever fails and whoever else holds leases. */
  lemma PersistKeeps(w: World, h: nat, lease: Lease, luck: Luck)
    requires Sound(w) && Moves(w, h, lease)
    ensures Sound(Persisted(w, h, lease, luck))
  {
    HistoryAfterPersist(w, h, lease, luck);
    forall key
      ensures FileKept(Persisted(w, h, lease, luck), key)
    {
      FileAfterPersist(w, h, lease, luck, key);
    }
    forall g
      ensures LeaseKept(Persisted(w, h, lease, luck), g)
    {
      LeaseAfterPersist(w, h, lease, luck, g);
    }
  }

  // ---------- The operations ----------

  /** The lease built in memory for a Run. */
  function TakenUp(w: World, key: nat, run: nat, attachment: Attachment, policy: Policy): Lease {
    var file := if key in w.sessions then w.sessions[key] else Opened(key, w.next, policy);
    var state := Continued(file, attachment, policy);
    Lease(state, Identity(run, state.session, state.sessionEpoch, w.next + 1, state.controlEpoch, Agent, policy))
  }

  function Rotated(lease: Lease, next: nat): Lease {
    Lease(lease.state.(sessionEpoch := lease.state.sessionEpoch + 1, controlEpoch := lease.state.controlEpoch + 1,
                       controller := Agent),
          lease.identity.(sessionEpoch := lease.identity.sessionEpoch + 1, controlEpoch := lease.identity.controlEpoch + 1,
                          controller := Agent, attachment := next))
  }

  function HandedOver(lease: Lease, target: Controller): Lease {
    Lease(lease.state.(controlEpoch := lease.identity.controlEpoch + 1, controller := target),
          lease.identity.(controlEpoch := lease.identity.controlEpoch + 1, controller := target))
  }

  /** Taking up a session needs the root; pruning may first have removed others. */
  predicate MayPrune(w: World, key: nat, pruned: set<nat>) { w.holder.None? && key !in pruned }

  predicate MayTakeUp(w: World, key: nat, pruned: set<nat>) {
    MayPrune(w, key, pruned) && (key in w.sessions ==> w.sessions[key].key == key)
  }

  function Pruned(w: World, pruned: set<nat>): World { w.(sessions := w.sessions - pruned) }

  /** The lease in memory has the handle `w.next + 2`. */
  function AfterTakeUp(w: World, key: nat, run: nat, attachment: Attachment, policy: Policy, pruned: set<nat>): World
    requires MayTakeUp(w, key, pruned)
  {
    var v := Pruned(w, pruned);
    var lease := TakenUp(v, key, run, attachment, policy);
    v.(leases := v.leases[w.next + 2 := Held(lease, false, Last(w.history, lease.state.session), false)],
       holder := Some(w.next + 2), next := w.next + 3)
  }

  /** The lease is in use: it has been persisted and not closed. */
  predicate InUse(w: World, h: nat) { h in w.leases && w.leases[h].begun }

  predicate MayBegin(w: World, h: nat) { h in w.leases && !w.leases[h].begun }

  /** The anchor is the new activation, if there is one. */
  function Reanchored(w: World, h: nat, lease: Lease, owing: bool, luck: Luck): Held
    requires h in w.leases
  {
    Held(lease, owing, if luck.Activates() then Some(|w.history|) else w.leases[h].anchor, true)
  }

  /** The first persist; if it fails the root is free again. */
  function AfterBegin(w: World, h: nat, luck: Luck): World
    requires MayBegin(w, h)
  {
    var lease := w.leases[h].lease;
    var p := Persisted(w, h, lease, luck);
    if luck.Persists() then p.(leases := w.leases[h := Reanchored(w, h, lease, false, luck)])
    else p.(leases := w.leases - {h}, holder := if w.holder == Some(h) then None else w.holder)
  }

  /** A new attachment under new epochs; a failure is not rolled back. */
  function AfterRotate(w: World, h: nat, luck: Luck): World
    requires InUse(w, h)
  {
    var lease := Rotated(w.leases[h].lease, w.next);
    Persisted(w, h, lease, luck).(leases := w.leases[h := Reanchored(w, h, lease, false, luck)], next := w.next + 1)
  }

  /** The expected controller holds the lease, and the epoch, if any is asked for,
      is the next one. */
  predicate Allowed(w: World, h: nat, expected: Controller, epoch: nat) {
    && InUse(w, h) && w.leases[h].lease.identity.controller == expected
    && (epoch == 0 || epoch == w.leases[h].lease.identity.controlEpoch + 1)
  }

  /** Hands control over; an error puts the memory, but not the disk, back. */
  function AfterTransition(w: World, h: nat, target: Controller, luck: Luck): World
    requires InUse(w, h)
  {
    var held := w.leases[h];
    var lease := HandedOver(held.lease, target);
    Persisted(w, h, lease, luck).(leases := w.leases[h :=
      if luck.Persists() then Reanchored(w, h, lease, false, luck)
      else Reanchored(w, h, held.lease, held.owing || luck.Activates(), luck)])
  }

  /** A close gives the root up in any case; only a clean one ends the lease. The
      active file goes if it is still the lease's own. */
  function AfterClose(w: World, h: nat, luck: Luck): World
    requires InUse(w, h)
  {
    var identity := w.leases[h].lease.identity;
    var v := w.(holder := if w.holder == Some(h) then None else w.holder);
    if luck.lock != Done then v.(crashed := w.crashed || luck.lock.Crash?)
    else
      var u := if luck.record.Landed() then v.(runs := v.runs - {identity.run}) else v;
      if luck.record.Crash? then u.(crashed := true)
      else
        var t := if w.active == Some(identity) && luck.removal.Landed() then u.(active := None) else u;
        var clean := luck.record == Done && (w.active.None? || luck.removal == Done);
        t.(leases := if clean then w.leases - {h} else w.leases,
           crashed := w.crashed || (w.active.Some? && luck.removal.Crash?))
  }

  /** The next process holds no lease. */
  function AfterRestart(w: World): World { w.(leases := map[], holder := None, crashed := false) }

  datatype Op = TakeUpOp(key: nat, run: nat, attachment: Attachment, policy: Policy, pruned: set<nat>)
              | BeginOp(h: nat, luck: Luck) | RotateOp(h: nat, luck: Luck)
              | TransitionOp(h: nat, expected: Controller, target: Controller, epoch: nat, luck: Luck)
              | CloseOp(h: nat, luck: Luck) | RestartOp

  /** An operation that cannot be made is not; after a crash there is only a restart. */
  function After(w: World, op: Op): World {
    if w.crashed then AfterRestart(w)
    else
      match op
      case TakeUpOp(key, run, attachment, policy, pruned) =>
        if MayTakeUp(w, key, pruned) then AfterTakeUp(w, key, run, attachment, policy, pruned)
        else if MayPrune(w, key, pruned) then Pruned(w, pruned) else w
      case BeginOp(h, luck) => if MayBegin(w, h) then AfterBegin(w, h, luck) else w
      case RotateOp(h, luck) => if InUse(w, h) then AfterRotate(w, h, luck) else w
      case TransitionOp(h, expected, target, epoch, luck) =>
        if Allowed(w, h, expected, epoch) then AfterTransition(w, h, target, luck) else w
      case CloseOp(h, luck) => if InUse(w, h) then AfterClose(w, h, luck) else w
      case RestartOp => AfterRestart(w)
  }

  /** The world after all these operations. */
  function Reached(w: World, ops: seq<Op>): World {
    if ops == [] then w else After(Reached(w, ops[..|ops| - 1]), ops[|ops| - 1])
  }

  // ---------- Every operation is sound ----------

  /** Replacing what a lease has in memory, and its anchor. */
  lemma ReplaceKeeps(w: World, h: nat, held: Held)
    requires Sound(w) && h in w.leases && held.lease.Agrees()
    requires held.lease.state.key == w.leases[h].lease.state.key && held.lease.state.session == w.leases[h].lease.state.session
    requires held.lease.state.session !in w.torn ==> Anchored(w.history, held.anchor, Upcoming(held), held.owing)
    ensures Sound(w.(leases := w.leases[h := held]))
  {
    hide Fenced;
    var v := w.(leases := w.leases[h := held]);
    forall g
      ensures LeaseKept(v, g)
    {
      assert LeaseKept(w, g) && LeaseKept(w, h);
    }
    forall key
      ensures FileKept(v, key)
    {
      assert FileKept(w, key);
    }
  }

  lemma FewerLeasesKeep(w: World, leases: map<nat, Held>)
    requires Sound(w) && leases.Keys <= w.leases.Keys && forall h :: h in leases ==> leases[h] == w.leases[h]
    ensures Sound(w.(leases := leases))
  {
    hide Fenced;
    var v := w.(leases := leases);
    forall g
      ensures LeaseKept(v, g) && FileKept(v, g)
    {
      assert LeaseKept(w, g) && FileKept(w, g);
    }
  }

  /** What concerns neither sessions, leases nor history, and later identifiers. */
  lemma OthersKeep(w: World, active: Option<Identity>, runs: map<nat, Identity>, holder: Option<nat>, crashed: bool, next: nat)
    requires Sound(w) && (active == w.active || active == None) && next >= w.next
    ensures Sound(w.(active := active, runs := runs, holder := holder, crashed := crashed, next := next))
  {
    hide Fenced;
    var v := w.(active := active, runs := runs, holder := holder, crashed := crashed, next := next);
    forall g
      ensures LeaseKept(v, g) && FileKept(v, g) && Issued(v.history, v.next, g) && Orderly(v.history, v.torn, g)
    {
      assert LeaseKept(w, g) && FileKept(w, g) && Issued(w.history, w.next, g) && Orderly(w.history, w.torn, g);
    }
  }

  lemma PruneKeeps(w: World, pruned: set<nat>)
    requires Sound(w)
    ensures Sound(Pruned(w, pruned))
  {
    hide Fenced;
    var v := Pruned(w, pruned);
    forall g
      ensures LeaseKept(v, g) && FileKept(v, g)
    {
      assert LeaseKept(w, g) && FileKept(w, g);
    }
  }

  lemma TakeUpKeeps(w: World, key: nat, run: nat, attachment: Attachment, policy: Policy, pruned: set<nat>)
    requires Sound(w) && MayTakeUp(w, key, pruned)
    ensures Sound(AfterTakeUp(w, key, run, attachment, policy, pruned))
  {
    hide Fenced;
    PruneKeeps(w, pruned);
    var v, u := Pruned(w, pruned), AfterTakeUp(w, key, run, attachment, policy, pruned);
    assert FileKept(v, key) && forall i :: Issued(w.history, w.next, i);
    forall g
      ensures FileKept(u, g) && LeaseKept(u, g) && Issued(u.history, u.next, g)
    {
      assert FileKept(v, g) && LeaseKept(v, g) && Issued(w.history, w.next, g);
      if g == w.next + 2 {
        NewLeaseKept(v, key, TakenUp(v, key, run, attachment, policy), u);
      } else if g in v.leases {
        SameSessionSameKey(v, key, run, attachment, policy, g);
      }
    }
  }

  /** The lease just taken up is as far as its session's last activation. */
  lemma NewLeaseKept(v: World, key: nat, lease: Lease, u: World)
    requires Sound(v) && (key in v.sessions ==> v.sessions[key].key == key)
    requires exists run, attachment, policy :: lease == TakenUp(v, key, run, attachment, policy)
    requires u == v.(leases := v.leases[v.next + 2 := Held(lease, false, Last(v.history, lease.state.session), false)],
                     holder := Some(v.next + 2), next := v.next + 3)
    ensures LeaseKept(u, v.next + 2)
  {
    hide Fenced;
    var run, attachment, policy :| lease == TakenUp(v, key, run, attachment, policy);
    assert FileKept(v, key);
    assert forall i :: Issued(v.history, v.next, i);
    forall other | other in v.sessions && other != key
      ensures v.sessions[other].session != lease.state.session
    {
      assert FileKept(v, other);
    }
    forall g | g in v.leases && v.leases[g].lease.state.session == lease.state.session
      ensures v.leases[g].lease.state.key == key
    {
      assert LeaseKept(v, g);
    }
    var last := Last(v.history, lease.state.session);
    assert last.Some? ==> Issued(v.history, v.next, last.value);
  }

  lemma SameSessionSameKey(v: World, key: nat, run: nat, attachment: Attachment, policy: Policy, g: nat)
    requires Sound(v) && g in v.leases && (key in v.sessions ==> v.sessions[key].key == key)
    ensures var lease := TakenUp(v, key, run, attachment, policy);
            lease.state.session == v.leases[g].lease.state.session ==> lease.state.key == v.leases[g].lease.state.key
  {
    hide Fenced;
    assert LeaseKept(v, g);
  }

  lemma BeginKeeps(w: World, h: nat, luck: Luck)
    requires Sound(w) && MayBegin(w, h)
    ensures Sound(AfterBegin(w, h, luck))
  {
    hide Fenced;
    var lease := w.leases[h].lease;
    var p := Persisted(w, h, lease, luck);
    assert LeaseKept(w, h);
    PersistKeeps(w, h, lease, luck);
    if luck.Persists() {
      ReplaceKeeps(p, h, Reanchored(w, h, lease, false, luck));
    } else {
      FewerLeasesKeep(p, w.leases - {h});
      OthersKeep(p.(leases := w.leases - {h}), p.active, p.runs, AfterBegin(w, h, luck).holder, p.crashed, p.next);
    }
  }

  lemma RotateKeeps(w: World, h: nat, luck: Luck)
    requires Sound(w) && InUse(w, h)
    ensures Sound(AfterRotate(w, h, luck))
  {
    hide Fenced;
    var lease := Rotated(w.leases[h].lease, w.next);
    var p := Persisted(w, h, lease, luck);
    assert LeaseKept(w, h);
    PersistKeeps(w, h, lease, luck);
    var held := Reanchored(w, h, lease, false, luck);
    ReplaceKeeps(p, h, held);
    var v := p.(leases := w.leases[h := held]);
    OthersKeep(v, v.active, v.runs, v.holder, v.crashed, w.next + 1);
  }

  lemma TransitionKeeps(w: World, h: nat, target: Controller, luck: Luck)
    requires Sound(w) && InUse(w, h)
    ensures Sound(AfterTransition(w, h, target, luck))
  {
    hide Fenced;
    var held := w.leases[h];
    var lease := HandedOver(held.lease, target);
    var p := Persisted(w, h, lease, luck);
    assert LeaseKept(w, h);
    PersistKeeps(w, h, lease, luck);
    ReplaceKeeps(p, h, if luck.Persists() then Reanchored(w, h, lease, false, luck)
                       else Reanchored(w, h, held.lease, held.owing || luck.Activates(), luck));
  }

  lemma CloseKeeps(w: World, h: nat, luck: Luck)
    requires Sound(w) && InUse(w, h)
    ensures Sound(AfterClose(w, h, luck))
  {
    hide Fenced, Sound;
    var c := AfterClose(w, h, luck);
    OthersKeep(w, c.active, c.runs, c.holder, c.crashed, w.next);
    FewerLeasesKeep(c.(leases := w.leases), c.leases);
  }

  lemma AfterKeeps(w: World, op: Op)
    requires Sound(w)
    ensures Sound(After(w, op))
  {
    hide Sound;
    if w.crashed || op.RestartOp? {
      FewerLeasesKeep(w, map[]);
      OthersKeep(w.(leases := map[]), w.active, w.runs, None, false, w.next);
    } else {
      match op {
        case TakeUpOp(key, run, attachment, policy, pruned) =>
          if MayTakeUp(w, key, pruned) { TakeUpKeeps(w, key, run, attachment, policy, pruned); }
          PruneKeeps(w, pruned);
        case BeginOp(h, luck) => if MayBegin(w, h) { BeginKeeps(w, h, luck); }
        case RotateOp(h, luck) => if InUse(w, h) { RotateKeeps(w, h, luck); }
        case TransitionOp(h, expected, target, epoch, luck) =>
          if Allowed(w, h, expected, epoch) { TransitionKeeps(w, h, target, luck); }
        case CloseOp(h, luck) => if InUse(w, h) { CloseKeeps(w, h, luck); }
        case RestartOp =>
      }
    }
  }

  /** Every run of any Runs on one root, with all failures, crashes and restarts. */
  lemma {:induction false} EveryRunIsSound(w: World, ops: seq<Op>)
    requires Sound(w)
    ensures Sound(Reached(w, ops))
  {
    if ops != [] {
      EveryRunIsSound(w, ops[..|ops| - 1]);
      AfterKeeps(Reached(w, ops[..|ops| - 1]), ops[|ops| - 1]);
    }
  }

  // ---------- Sessions and attachments ----------

  /** A Run that acquires a session goes on with it where there is a file: the same
      session, the next control epoch, and one more session epoch for a policy and one
      for an attachment that are not the file's. Else it opens a session that nothing
      knows. What it holds is what the files say, for this Run and the agent. */
  lemma AcquireOutcome(w: World, key: nat, run: nat, attachment: Attachment, policy: Policy, pruned: set<nat>, luck: Luck)
    requires Sound(w) && MayTakeUp(w, key, pruned) && luck.Persists()
    ensures var v, h := AfterBegin(AfterTakeUp(w, key, run, attachment, policy, pruned), w.next + 2, luck), w.next + 2;
            && InUse(v, h) && v.holder == Some(h) && key in v.sessions
            && Records(v, v.leases[h].lease.identity, key, run, attachment, policy)
            && v.sessions == (w.sessions - pruned)[key := v.sessions[key]]
            && (key in w.sessions ==> GoesOn(w.sessions[key], v.sessions[key], attachment, policy))
            && (key !in w.sessions ==>
                  && v.sessions[key].sessionEpoch == 1 && v.sessions[key].controlEpoch == 1
                  && Unknown(w, v.sessions[key].session))
  {
    hide Fenced, LastBefore;
    var session := if key in w.sessions then w.sessions[key].session else w.next;
    if key !in w.sessions {
      forall other: nat
        ensures (other in w.sessions ==> w.sessions[other].session != session)
        ensures (other in w.leases ==> w.leases[other].lease.state.session != session)
        ensures other < |w.history| ==> w.history[other].identity.session != session
      {
        assert FileKept(w, other) && LeaseKept(w, other) && Issued(w.history, w.next, other);
      }
    }
  }

  /** The files of a session that is in use. */
  predicate Records(v: World, id: Identity, key: nat, run: nat, attachment: Attachment, policy: Policy)
    requires key in v.sessions
  {
    var file := v.sessions[key];
    && id.run == run && id.policy == policy && id.controller == Agent
    && id.session == file.session && id.sessionEpoch == file.sessionEpoch && id.controlEpoch == file.controlEpoch
    && file.key == key && file.controller == Agent && file.attachment == Some(attachment) && file.policy == Some(policy)
    && v.active == Some(id) && run in v.runs && v.runs[run] == id
  }

  predicate GoesOn(before: State, after: State, attachment: Attachment, policy: Policy) {
    && after.session == before.session && after.controlEpoch == before.controlEpoch + 1
    && after.sessionEpoch == before.sessionEpoch
                             + (if before.policy == Some(policy) then 0 else 1)
                             + (if before.attachment == None || before.attachment == Some(attachment) then 0 else 1)
  }

  predicate Unknown(w: World, session: nat) {
    && (forall other :: other in w.sessions ==> w.sessions[other].session != session)
    && (forall other :: other in w.leases ==> w.leases[other].lease.state.session != session)
    && forall i :: 0 <= i < |w.history| ==> w.history[i].identity.session != session
  }

  /** An acquisition that is not persisted holds nothing and leaves the root free. */
  lemma FailedAcquireHoldsNothing(w: World, key: nat, run: nat, attachment: Attachment, policy: Policy, pruned: set<nat>, luck: Luck)
    requires MayTakeUp(w, key, pruned) && !luck.Persists()
    ensures var v := AfterBegin(AfterTakeUp(w, key, run, attachment, policy, pruned), w.next + 2, luck);
            v.holder.None? && w.next + 2 !in v.leases && forall g :: g in w.leases && g != w.next + 2 ==> g in v.leases && v.leases[g] == w.leases[g]
  {
  }

  /** A rotation raises both epochs and gives control to the agent, in memory in any case
      and on disk if it is persisted. */
  lemma RotateOutcome(w: World, h: nat, luck: Luck)
    requires InUse(w, h)
    ensures var v := AfterRotate(w, h, luck);
            InUse(v, h) &&
            var a, b := w.leases[h].lease.identity, v.leases[h].lease.identity;
            && b.run == a.run && b.session == a.session && b.policy == a.policy && b.controller == Agent
            && b.sessionEpoch == a.sessionEpoch + 1 && b.controlEpoch == a.controlEpoch + 1
            && (luck.Persists() ==>
                  && v.active == Some(b) && b.run in v.runs && v.runs[b.run] == b
                  && v.leases[h].lease.state.key in v.sessions
                  && v.sessions[v.leases[h].lease.state.key] == v.leases[h].lease.state)
  {
  }

  /** Attachments have been drawn. */
  predicate Drawn(w: World, i: nat) {
    && (i < |w.history| ==> w.history[i].identity.attachment < w.next)
    && (i in w.leases ==> w.leases[i].lease.identity.attachment < w.next)
  }

  /** Identities of one attachment differ in controller and control epoch only. */
  predicate SameIncarnation(a: Identity, b: Identity) {
    a == b.(controlEpoch := a.controlEpoch, controller := a.controller)
  }

  /** An attachment stands for one incarnation, and for one lease at most. */
  predicate Told(w: World, i: nat, j: nat) {
    && Drawn(w, i)
    && (i < |w.history| && j < |w.history| && w.history[i].identity.attachment == w.history[j].identity.attachment ==>
          SameIncarnation(w.history[i].identity, w.history[j].identity))
    && (i < |w.history| && j in w.leases && w.history[i].identity.attachment == w.leases[j].lease.identity.attachment ==>
          SameIncarnation(w.history[i].identity, w.leases[j].lease.identity))
    && (i in w.leases && j in w.leases && w.leases[i].lease.identity.attachment == w.leases[j].lease.identity.attachment ==> i == j)
  }

  ghost predicate AllTold(w: World) { forall i, j :: Told(w, i, j) }

  /** From `w` to `v` an identity `id` of the lease `h` may have been activated, of the
      incarnation that the lease has, or else of a new one that it then has. */
  predicate Shows(w: World, v: World, h: nat, id: Identity) {
    && h in w.leases && v.next >= w.next
    && (v.history == w.history || (|v.history| == |w.history| + 1 && v.history[..|w.history|] == w.history &&
                                   v.history[|w.history|].identity == id))
    && v.leases.Keys <= w.leases.Keys && (forall g :: g in v.leases && g != h ==> v.leases[g] == w.leases[g])
    && (h in v.leases ==> SameIncarnation(v.leases[h].lease.identity, id))
    && (SameIncarnation(w.leases[h].lease.identity, id) || (id.attachment == w.next < v.next))
  }

  lemma ShowsTold(w: World, v: World, h: nat, id: Identity)
    requires AllTold(w) && Shows(w, v, h, id)
    ensures forall i, j :: Told(v, i, j)
  {
    assert forall i: nat :: i < |w.history| ==> v.history[i] == v.history[..|w.history|][i];
    forall i: nat, j: nat
      ensures Told(v, i, j)
    {
      assert Told(w, i, j) && Told(w, i, h) && Told(w, j, h) && Told(w, h, h);
    }
  }

  lemma PersistShows(w: World, h: nat, lease: Lease, luck: Luck, v: World)
    requires h in w.leases && v.history == Persisted(w, h, lease, luck).history && v.next >= w.next
    requires v.leases.Keys <= w.leases.Keys && (forall g :: g in v.leases && g != h ==> v.leases[g] == w.leases[g])
    requires h in v.leases ==> SameIncarnation(v.leases[h].lease.identity, lease.identity)
    requires SameIncarnation(w.leases[h].lease.identity, lease.identity) || (lease.identity.attachment == w.next < v.next)
    ensures Shows(w, v, h, lease.identity)
  {
    hide Overtaken, Behind;
  }

  lemma ToldKeeps(w: World, op: Op)
    requires AllTold(w)
    ensures AllTold(After(w, op))
  {
    hide Told, Drawn, Persisted, SameIncarnation, Shows;
    var v := After(w, op);
    if w.crashed {
      FewerTold(w, v);
    } else {
      match op {
        case TakeUpOp(key, run, attachment, policy, pruned) => TakeUpTold(w, op);
        case BeginOp(h, luck) =>
          if MayBegin(w, h) {
            PersistDrawsNothing(w, h, w.leases[h].lease, luck);
            TransitionTold(w, h, w.leases[h].lease, luck, v);
          }
        case RotateOp(h, luck) =>
          if InUse(w, h) { RotateTold(w, h, luck); }
        case TransitionOp(h, expected, target, epoch, luck) =>
          if Allowed(w, h, expected, epoch) {
            PersistDrawsNothing(w, h, HandedOver(w.leases[h].lease, target), luck);
            TransitionTold(w, h, HandedOver(w.leases[h].lease, target), luck, v);
          }
        case CloseOp(h, luck) => FewerTold(w, v);
        case RestartOp => FewerTold(w, v);
      }
    }
  }

  lemma PersistDrawsNothing(w: World, h: nat, lease: Lease, luck: Luck)
    requires h in w.leases
    ensures Persisted(w, h, lease, luck).next == w.next
  {
  }

  lemma FewerTold(w: World, v: World)
    requires AllTold(w) && v.history == w.history && v.leases.Keys <= w.leases.Keys && v.next >= w.next
    requires forall g :: g in v.leases ==> v.leases[g] == w.leases[g]
    ensures forall i, j :: Told(v, i, j)
  {
    forall i: nat, j: nat
      ensures Told(v, i, j)
    {
      assert Told(w, i, j);
    }
  }

  lemma TakeUpTold(w: World, op: Op)
    requires AllTold(w) && !w.crashed && op.TakeUpOp?
    ensures forall i, j :: Told(After(w, op), i, j)
  {
    hide Continued, LastBefore;
    var v := After(w, op);
    forall i: nat, j: nat
      ensures Told(v, i, j)
    {
      assert Told(w, i, j) && Told(w, j, j);
    }
  }

  lemma TransitionTold(w: World, h: nat, lease: Lease, luck: Luck, v: World)
    requires AllTold(w) && h in w.leases && v.history == Persisted(w, h, lease, luck).history && v.next >= w.next
    requires lease.identity == w.leases[h].lease.identity.(controlEpoch := lease.identity.controlEpoch,
                                                           controller := lease.identity.controller)
    requires v.leases.Keys <= w.leases.Keys && (forall g :: g in v.leases && g != h ==> v.leases[g] == w.leases[g])
    requires h in v.leases ==> v.leases[h].lease.identity in {w.leases[h].lease.identity, lease.identity}
    ensures forall i, j :: Told(v, i, j)
  {
    hide Told, Drawn;
    PersistShows(w, h, lease, luck, v);
    ShowsTold(w, v, h, lease.identity);
  }

  lemma RotateTold(w: World, h: nat, luck: Luck)
    requires AllTold(w) && InUse(w, h)
    ensures forall i, j :: Told(AfterRotate(w, h, luck), i, j)
  {
    hide Told, Drawn;
    var lease := Rotated(w.leases[h].lease, w.next);
    PersistShows(w, h, lease, luck, AfterRotate(w, h, luck));
    ShowsTold(w, AfterRotate(w, h, luck), h, lease.identity);
  }

  /** In any run, two activations under one attachment are of the same Run, session,
      session epoch and policy. */
  lemma {:induction false} AttachmentsTellIncarnations(w: World, ops: seq<Op>)
    requires AllTold(w)
    ensures AllTold(Reached(w, ops))
  {
    if ops != [] {
      AttachmentsTellIncarnations(w, ops[..|ops| - 1]);
      ToldKeeps(Reached(w, ops[..|ops| - 1]), ops[|ops| - 1]);
    }
  }

  /** The operation takes the lease `h` up or rotates it. */
  predicate Mints(w: World, op: Op, h: nat) {
    || (op.TakeUpOp? && MayTakeUp(w, op.key, op.pruned) && h == w.next + 2)
    || (op.RotateOp? && InUse(w, op.h) && h == op.h)
  }

  /** After any run, a lease that is taken up and one that is rotated get an attachment
      that no activation and no other lease has carried. */
  lemma AttachmentsAreFresh(w: World, ops: seq<Op>, op: Op, h: nat)
    requires AllTold(w)
    requires !Reached(w, ops).crashed && Mints(Reached(w, ops), op, h)
    ensures h in After(Reached(w, ops), op).leases
    ensures var v, attachment := Reached(w, ops), After(Reached(w, ops), op).leases[h].lease.identity.attachment;
            && (forall i :: 0 <= i < |v.history| ==> v.history[i].identity.attachment != attachment)
            && (forall g :: g in v.leases ==> v.leases[g].lease.identity.attachment != attachment)
  {
    AttachmentsTellIncarnations(w, ops);
    var v := Reached(w, ops);
    forall i: nat
      ensures i < |v.history| ==> v.history[i].identity.attachment < v.next
      ensures i in v.leases ==> v.leases[i].lease.identity.attachment < v.next
    {
      assert Told(v, i, i);
    }
  }

  /** After a crash whatever comes next finds no lease, a free root and the files. */
  lemma CrashForgets(w: World, op: Op)
    requires w.crashed || op.RestartOp?
    ensures var v := After(w, op);
            && v.leases == map[] && v.holder.None? && !v.crashed
            && v.sessions == w.sessions && v.active == w.active && v.runs == w.runs && v.history == w.history
  {
  }

  // ---------- What single operations promise ----------

  /** A hand-over that is persisted is what everybody sees; one that is not leaves the
      memory as it was, and owing exactly if it was before or its identity has been
      activated. */
  lemma TransitionOutcome(w: World, h: nat, target: Controller, luck: Luck)
    requires InUse(w, h)
    ensures var v, after := AfterTransition(w, h, target, luck), HandedOver(w.leases[h].lease, target);
            && InUse(v, h)
            && (luck.Persists() ==>
                  && v.leases[h].lease == after && !v.leases[h].owing && v.active == Some(after.identity)
                  && after.state.key in v.sessions && v.sessions[after.state.key] == after.state
                  && after.identity.run in v.runs && v.runs[after.identity.run] == after.identity)
            && (!luck.Persists() ==>
                  v.leases[h].lease == w.leases[h].lease && (v.leases[h].owing <==> w.leases[h].owing || luck.Activates()))
  {
  }

  /** What a persist leaves behind wherever it stops: the state is written before the
      identity is active, and that before the Run's own file; an identity whose Run has
      no file is taken out of the active file where that can be done. */
  lemma PersistStops(w: World, h: nat, lease: Lease, luck: Luck)
    requires h in w.leases
    ensures var v := Persisted(w, h, lease, luck);
            && (luck.lock != Done ==> v == w.(crashed := v.crashed))
            && (luck.lock == Done && luck.state != Done ==>
                  v == w.(sessions := v.sessions, torn := v.torn, crashed := v.crashed) &&
                  (v.sessions == w.sessions || v.sessions == w.sessions[lease.state.key := lease.state]))
            && (luck.lock == Done && luck.state == Done ==>
                  && v.sessions == w.sessions[lease.state.key := lease.state]
                  && (luck.active == Failed(false) || luck.active == Crash(false) ==>
                        v.active == w.active && v.runs == w.runs && v.history == w.history)
                  && (luck.active == Failed(true) || luck.active == Crash(true) ==>
                        v.active == Some(lease.identity) && v.runs == w.runs && |v.history| == |w.history| + 1)
                  && (luck.active == Done ==>
                        && |v.history| == |w.history| + 1 && v.history[|w.history|].identity == lease.identity
                        && v.active == (if luck.record.Failed? && luck.removal.Landed() then None else Some(lease.identity))
                        && v.runs == if luck.record.Landed() then w.runs[lease.identity.run := lease.identity] else w.runs))
            && (v.crashed <==> w.crashed || luck.Crashes())
  {
    hide Overtaken, Behind;
  }

  /** In a session that is not torn a lease is owing if and only if the activation that
      it last made or saw had the epoch that it will use next. */
  lemma OwingIsBehind(w: World, h: nat)
    requires Sound(w) && InUse(w, h) && w.leases[h].lease.state.session !in w.torn
    ensures var held := w.leases[h];
            held.owing <==> held.anchor.Some? && held.anchor.value < |w.history| &&
                            w.history[held.anchor.value].identity.controlEpoch == held.lease.identity.controlEpoch + 1
  {
    hide Fenced;
    assert LeaseKept(w, h);
  }

  /** A close frees the root in any case. It ends the lease exactly if the Run's file
      could be removed and the active file, if there is one, be read and, where it is
      still the lease's own, be removed; otherwise the lease can be used again. */
  lemma CloseOutcome(w: World, h: nat, luck: Luck)
    requires InUse(w, h)
    ensures var v, identity := AfterClose(w, h, luck), w.leases[h].lease.identity;
            && v.holder != Some(h) && v.sessions == w.sessions && v.history == w.history
            && (h !in v.leases <==>
                  luck.lock == Done && luck.record == Done && (w.active.Some? ==> luck.removal == Done))
            && (h !in v.leases ==> identity.run !in v.runs && v.active != Some(identity))
            && (h in v.leases ==> InUse(v, h) && v.leases[h] == w.leases[h])
  {
    var identity := w.leases[h].lease.identity;
    if luck.lock == Done && !luck.record.Crash? {
      assert AfterClose(w, h, luck).runs == if luck.record.Landed() then w.runs - {identity.run} else w.runs;
    }
  }

  /** A close leaves the files of other leases alone. */
  lemma CloseSparesOthers(w: World, h: nat, luck: Luck)
    requires InUse(w, h)
    ensures var v, identity := AfterClose(w, h, luck), w.leases[h].lease.identity;
            && (v.active == w.active || (v.active.None? && w.active == Some(identity)))
            && forall run :: run in w.runs && run != identity.run ==> run in v.runs && v.runs[run] == w.runs[run]
  {
  }

  // ---------- When epochs rise ----------

  /** The next identity of a lease, by hand-over or rotation, is above all earlier ones
      of its session if and only if the session's last one is not above the lease. For a
      lease that has not been overtaken that is to say that it is not owing; and for one
      that has spent no epoch since its anchor, where the last activation was above the
      others, that no other Run has activated the session since. */
  lemma NextIsNewer(w: World, h: nat, target: Controller)
    requires Sound(w) && InUse(w, h) && w.leases[h].lease.state.session !in w.torn
    ensures var held := w.leases[h];
            var last := Last(w.history, held.lease.state.session);
            var newer := Newer(w.history, |w.history|, HandedOver(held.lease, target).identity);
            && newer == Newer(w.history, |w.history|, Rotated(held.lease, w.next).identity)
            && (newer <==> last.None? || w.history[last.value].identity.controlEpoch <= held.lease.identity.controlEpoch)
            && (!Overtaken(w, h) ==> (newer <==> !held.owing))
            && (Thrifty(w.history, held) && (last.Some? ==> Newer(w.history, last.value, w.history[last.value].identity)) ==>
                  (newer <==> !Overtaken(w, h)))
  {
    var held := w.leases[h];
    var last := Last(w.history, held.lease.state.session);
    assert LeaseKept(w, h);
    LastDecides(w.history, w.torn, HandedOver(held.lease, target).identity);
    LastDecides(w.history, w.torn, Rotated(held.lease, w.next).identity);
    if Overtaken(w, h) && held.anchor.Some? && held.anchor.value < |w.history| {
      assert w.history[held.anchor.value].identity.session == held.lease.state.session && held.anchor.value < last.value;
    }
  }

  /** The lease is where its anchor is. */
  predicate Thrifty(history: seq<Activation>, held: Held) {
    && held.anchor.Some? && held.anchor.value < |history|
    && held.lease.identity.controlEpoch == history[held.anchor.value].identity.controlEpoch
  }

  /** Only the holder of the root has a lease, and nobody has been overtaken. */
  ghost predicate Alone(w: World) {
    && w.torn == {} && (forall h :: Undisturbed(w.history, w.leases, w.holder, h)) && forall i :: Rises(w.history, i)
  }

  predicate Undisturbed(history: seq<Activation>, leases: map<nat, Held>, holder: Option<nat>, h: nat) {
    h in leases ==> holder == Some(h) && Last(history, leases[h].lease.state.session) == leases[h].anchor
  }

  /** Without overtaking, an activation is above all earlier ones unless owed. */
  predicate Rises(history: seq<Activation>, i: nat) {
    i < |history| ==>
      && !history[i].overtaken && !history[i].torn && NotOlder(history, i, history[i].identity)
      && (Newer(history, i, history[i].identity) <==> !history[i].owing)
  }

  predicate Tidy(op: Op) { op.CloseOp? ==> op.luck.Closes() }

  lemma AlonePersistKeeps(w: World, h: nat, lease: Lease, luck: Luck, held: Held)
    requires Sound(w) && Alone(w) && Moves(w, h, lease)
    requires held.lease.state.session == lease.state.session
    requires held.anchor == if luck.Activates() then Some(|w.history|) else w.leases[h].anchor
    ensures Alone(Persisted(w, h, lease, luck).(leases := w.leases[h := held]))
    ensures Alone(Persisted(w, h, lease, luck).(leases := w.leases - {h}, holder := None))
  {
    var p := Persisted(w, h, lease, luck);
    PersistKeeps(w, h, lease, luck);
    TornExactly(w, h, lease, luck);
    hide Fenced, Sound, FencedAt, FileKept, LeaseKept, Anchored;
    assert Undisturbed(w.history, w.leases, w.holder, h);
    if luck.Activates() {
      LastAfter(w.history, p.history[|w.history|], lease.state.session);
    }
    var leases, fewer := w.leases[h := held], w.leases - {h};
    forall g: nat
      ensures Undisturbed(p.history, leases, w.holder, g) && Undisturbed(p.history, fewer, None, g)
    {
      assert Undisturbed(w.history, w.leases, w.holder, g);
    }
    forall i: nat
      ensures Rises(p.history, i)
    {
      RisesStays(w, p, i);
    }
  }

  lemma RisesStays(w: World, p: World, i: nat)
    requires Rises(w.history, i) && Sound(p) && w.history <= p.history && |p.history| <= |w.history| + 1
    requires |w.history| < |p.history| ==> !p.history[|w.history|].overtaken && !p.history[|w.history|].torn
    ensures Rises(p.history, i)
  {
    assert FencedAt(p.history, i);
    if i < |w.history| {
      assert p.history[i] == w.history[i];
      NewerStays(w.history, p.history, i, w.history[i].identity);
    }
  }

  lemma AloneTakeUpKeeps(w: World, key: nat, run: nat, attachment: Attachment, policy: Policy, pruned: set<nat>)
    requires Alone(w) && MayPrune(w, key, pruned)
    ensures Alone(Pruned(w, pruned))
    ensures MayTakeUp(w, key, pruned) ==> Alone(AfterTakeUp(w, key, run, attachment, policy, pruned))
  {
    hide Rises;
    if MayTakeUp(w, key, pruned) {
      var v := AfterTakeUp(w, key, run, attachment, policy, pruned);
      forall g: nat
        ensures Undisturbed(v.history, v.leases, v.holder, g)
      {
        assert Undisturbed(w.history, w.leases, w.holder, g);
      }
    }
  }

  lemma AloneCloseKeeps(w: World, h: nat, luck: Luck)
    requires Alone(w) && InUse(w, h) && luck.Closes()
    ensures Alone(AfterClose(w, h, luck))
  {
    hide Rises;
    var v := AfterClose(w, h, luck);
    forall g: nat
      ensures Undisturbed(v.history, v.leases, v.holder, g)
    {
      assert Undisturbed(w.history, w.leases, w.holder, g);
    }
  }

  lemma AloneKeeps(w: World, op: Op)
    requires Sound(w) && Alone(w) && Tidy(op)
    ensures Alone(After(w, op))
  {
    hide Fenced, FileKept, Rises, Persisted, NotOlder, Newer;
    assert forall h :: Undisturbed(w.history, w.leases, w.holder, h);
    if !w.crashed {
      match op {
        case TakeUpOp(key, run, attachment, policy, pruned) =>
          if MayPrune(w, key, pruned) { AloneTakeUpKeeps(w, key, run, attachment, policy, pruned); }
        case BeginOp(h, luck) =>
          if MayBegin(w, h) {
            assert LeaseKept(w, h) && Undisturbed(w.history, w.leases, w.holder, h);
            AlonePersistKeeps(w, h, w.leases[h].lease, luck, Reanchored(w, h, w.leases[h].lease, false, luck));
          }
        case RotateOp(h, luck) =>
          if InUse(w, h) {
            assert LeaseKept(w, h);
            var lease := Rotated(w.leases[h].lease, w.next);
            AlonePersistKeeps(w, h, lease, luck, Reanchored(w, h, lease, false, luck));
          }
        case TransitionOp(h, expected, target, epoch, luck) =>
          if Allowed(w, h, expected, epoch) {
            assert LeaseKept(w, h);
            var held := w.leases[h];
            AlonePersistKeeps(w, h, HandedOver(held.lease, target), luck, After(w, op).leases[h]);
          }
        case CloseOp(h, luck) => if InUse(w, h) { AloneCloseKeeps(w, h, luck); }
        case RestartOp =>
      }
    }
  }

  /** No transition fails after its identity was activated, short of a crash. */
  predicate Timely(op: Op) { op.TransitionOp? && op.luck.Activates() ==> op.luck.Persists() || op.luck.Crashes() }

  ghost predicate Paid(w: World) {
    && (!w.crashed ==> forall h :: h in w.leases ==> !w.leases[h].owing)
    && forall i :: 0 <= i < |w.history| ==> !w.history[i].owing
  }

  lemma PaidKeeps(w: World, op: Op)
    requires Paid(w) && Timely(op) && forall h :: MayBegin(w, h) ==> !w.leases[h].owing
    ensures Paid(After(w, op)) && forall h :: MayBegin(After(w, op), h) ==> !After(w, op).leases[h].owing
  {
  }

  ghost predicate Empty(w: World) {
    && w.history == [] && w.leases == map[] && w.torn == {} && w.active == None
    && forall key :: FileKept(w, key)
  }

  /** Where every close succeeds, no lease is overtaken: all activations of a session
      are in order, and if besides no transition fails after its activation, every
      control epoch is above all earlier ones of its session. */
  lemma {:induction false} TidyRunsRise(w: World, ops: seq<Op>)
    requires Empty(w) && forall op :: op in ops ==> Tidy(op)
    ensures Sound(Reached(w, ops)) && Alone(Reached(w, ops))
    ensures (forall op :: op in ops ==> Timely(op)) ==>
              && Paid(Reached(w, ops)) && (forall h :: MayBegin(Reached(w, ops), h) ==> !Reached(w, ops).leases[h].owing)
              && forall j :: 0 <= j < |Reached(w, ops).history| ==>
                   Newer(Reached(w, ops).history, j, Reached(w, ops).history[j].identity)
  {
    if ops != [] {
      var front, last := ops[..|ops| - 1], ops[|ops| - 1];
      TidyRunsRise(w, front);
      AfterKeeps(Reached(w, front), last);
      AloneKeeps(Reached(w, front), last);
      if forall op :: op in ops ==> Timely(op) {
        PaidKeeps(Reached(w, front), last);
      }
    }
    var v := Reached(w, ops);
    forall j: nat | (forall op :: op in ops ==> Timely(op)) && j < |v.history|
      ensures Newer(v.history, j, v.history[j].identity)
    {
      assert Rises(v.history, j);
    }
  }

  // ---------- The program ----------

  class Root {
    var sessions: map<nat, State>
    var active: Option<Identity>
    var runs: map<nat, Identity>
    /** The leases in memory by handle, those that have been persisted, and the one
        that holds the root. */
    var leases: map<nat, Lease>
    var begun: set<nat>
    var holder: Option<nat>
    /** Fresh identifiers. */
    var next: nat
    var crashed: bool
    /** The leases with what the proofs note about them. */
    ghost var noted: map<nat, Held>
    ghost var history: seq<Activation>
    ghost var torn: set<nat>

    constructor (sessions: map<nat, State>, next: nat)
      ensures Valid() && View() == World(sessions, None, map[], map[], None, next, false, [], {})
    {
      this.sessions, this.next := sessions, next;
      active, runs, leases, begun, holder, crashed := None, map[], map[], {}, None, false;
      noted, history, torn := map[], [], {};
    }

    ghost predicate Valid()
      reads this
    {
      && noted.Keys == leases.Keys
      && forall h :: h in leases ==> noted[h].lease == leases[h] && (noted[h].begun <==> h in begun)
    }

    ghost function View(): World
      reads this
    {
      World(sessions, active, runs, noted, holder, next, crashed, history, torn)
    }

    /** State first, then the active lease, then the Run's own lease. `lease` is what
        the lease `h` has become in memory. */
    method Persist(h: nat, lease: Lease, luck: Luck) returns (ok: bool)
      requires h in noted
      modifies `crashed, `sessions, `active, `runs, `history, `torn
      ensures View() == Persisted(old(View()), h, lease, luck)
      ensures ok == luck.Persists()
    {
      ghost var activation := Activation(lease.identity, noted[h].owing, Overtaken(View(), h), lease.state.session in torn);
      ok, crashed := false, crashed || luck.lock.Crash?;
      if luck.lock != Done {
        return;
      }
      WriteState(lease.state, luck, Behind(history, lease.identity));
      if luck.state != Done {
        return;
      }
      WriteActive(activation, lease.identity, luck);
      if luck.active != Done {
        return;
      }
      WriteRecord(lease.identity, luck);
      ok := luck.record == Done;
    }

    method WriteState(state: State, luck: Luck, ghost behind: bool)
      modifies `crashed, `sessions, `torn
      ensures sessions == if luck.state.Landed() then old(sessions)[state.key := state] else old(sessions)
      ensures torn == if luck.state.Landed() && behind then old(torn) + {state.session} else old(torn)
      ensures crashed == (old(crashed) || luck.state.Crash?)
    {
      if luck.state.Landed() {
        sessions := sessions[state.key := state];
        torn := if behind then torn + {state.session} else torn;
      }
      crashed := crashed || luck.state.Crash?;
    }

    method WriteActive(ghost activation: Activation, identity: Identity, luck: Luck)
      modifies `crashed, `active, `history
      ensures active == if luck.active.Landed() then Some(identity) else old(active)
      ensures history == if luck.active.Landed() then old(history) + [activation] else old(history)
      ensures crashed == (old(crashed) || luck.active.Crash?)
    {
      if luck.active.Landed() {
        active, history := Some(identity), history + [activation];
      }
      crashed := crashed || luck.active.Crash?;
    }

    /** A Run's file that fails to be written takes the active file with it. */
    method WriteRecord(identity: Identity, luck: Luck)
      requires active == Some(identity)
      modifies `crashed, `active, `runs
      ensures runs == if luck.record.Landed() then old(runs)[identity.run := identity] else old(runs)
      ensures active == if luck.record.Failed? && luck.removal.Landed() then None else old(active)
      ensures crashed == (old(crashed) || luck.record.Crash? || (luck.record.Failed? && luck.removal.Crash?))
    {
      if luck.record.Landed() {
        runs := runs[identity.run := identity];
      }
      crashed := crashed || luck.record.Crash?;
      if luck.record.Failed? {
        RemoveActiveIfCurrent(identity, luck);
      }
    }

    method RemoveActiveIfCurrent(identity: Identity, luck: Luck)
      modifies `crashed, `active
      ensures active == if old(active) == Some(identity) && luck.removal.Landed() then None else old(active)
      ensures crashed == (old(crashed) || (old(active).Some? && luck.removal.Crash?))
    {
      if active.None? {
        return;
      }
      if active == Some(identity) && luck.removal.Landed() {
        active := None;
      }
      crashed := crashed || luck.removal.Crash?;
    }

    /** The lease `h` is now this in memory. */
    method Set(h: nat, lease: Lease, ghost held: Held)
      requires Valid() && held.lease == lease && held.begun
      modifies `leases, `begun, `noted
      ensures Valid() && noted == old(noted)[h := held]
    {
      leases, begun, noted := leases[h := lease], begun + {h}, noted[h := held];
    }

    /** A lease that has not been persisted. */
    method New(h: nat, lease: Lease, ghost held: Held)
      requires Valid() && held.lease == lease && !held.begun
      modifies `leases, `begun, `noted
      ensures Valid() && noted == old(noted)[h := held]
    {
      leases, begun, noted := leases[h := lease], begun - {h}, noted[h := held];
    }

    method Drop(h: nat)
      requires Valid()
      modifies `leases, `noted
      ensures Valid() && noted == old(noted) - {h}
    {
      leases, noted := leases - {h}, noted - {h};
    }

    /** Gives the root up. */
    method Release(h: nat)
      modifies `holder
      ensures holder == if old(holder) == Some(h) then None else old(holder)
    {
      if holder == Some(h) {
        holder := None;
      }
    }

    /** The lease that a Run takes up, built from the session's file. */
    method ReadSession(key: nat, run: nat, attachment: Attachment, policy: Policy) returns (lease: Lease)
      ensures lease == TakenUp(View(), key, run, attachment, policy)
    {
      var file := if key in sessions then sessions[key] else Opened(key, next, policy);
      var state := Continued(file, attachment, policy);
      lease := Lease(state, Identity(run, state.session, state.sessionEpoch, next + 1, state.controlEpoch, Agent, policy));
    }

    /** Locks the root, prunes and reads the session's file. */
    method TakeUp(key: nat, run: nat, attachment: Attachment, policy: Policy, pruned: set<nat>) returns (h: nat)
      requires Valid() && MayTakeUp(View(), key, pruned)
      modifies this
      ensures Valid() && View() == AfterTakeUp(old(View()), key, run, attachment, policy, pruned)
      ensures h == old(next) + 2
    {
      hide LastBefore, TakenUp;
      sessions := sessions - pruned;
      var lease := ReadSession(key, run, attachment, policy);
      h := next + 2;
      New(h, lease, Held(lease, false, Last(history, lease.state.session), false));
      holder, next := Some(h), next + 3;
    }

    /** The first persist of a lease; failing, it is gone and the root is free. */
    method Begin(h: nat, luck: Luck) returns (ok: bool)
      requires Valid() && MayBegin(View(), h)
      modifies this
      ensures Valid() && View() == AfterBegin(old(View()), h, luck)
      ensures ok == luck.Persists()
    {
      ghost var held := Reanchored(View(), h, leases[h], false, luck);
      ok := Persist(h, leases[h], luck);
      if ok {
        Set(h, leases[h], held);
      } else {
        Drop(h);
        Release(h);
      }
    }

    /** Takes the root for a Run. A session's file under another key is an error. */
    method Acquire(key: nat, run: nat, attachment: Attachment, policy: Policy, pruned: set<nat>, luck: Luck)
      returns (ok: bool, h: nat)
      requires Valid()
      modifies this
      ensures Valid() && h == old(next) + 2 && (ok <==> MayTakeUp(old(View()), key, pruned) && luck.Persists())
      ensures View() == if MayTakeUp(old(View()), key, pruned)
                        then AfterBegin(AfterTakeUp(old(View()), key, run, attachment, policy, pruned), h, luck)
                        else if MayPrune(old(View()), key, pruned) then Pruned(old(View()), pruned) else old(View())
    {
      ok, h := false, next + 2;
      if holder.Some? || key in pruned {
        return;
      }
      if key in sessions && sessions[key].key != key {
        sessions := sessions - pruned;
        return;
      }
      h := TakeUp(key, run, attachment, policy, pruned);
      ok := Begin(h, luck);
    }

    /** A new attachment under new epochs; a failure is not rolled back. */
    method Rotate(h: nat, luck: Luck) returns (ok: bool)
      requires Valid() && InUse(View(), h)
      modifies this
      ensures Valid() && View() == AfterRotate(old(View()), h, luck)
      ensures ok == luck.Persists()
    {
      var lease := Rotated(leases[h], next);
      ghost var held := Reanchored(View(), h, lease, false, luck);
      next := next + 1;
      ok := Persist(h, lease, luck);
      Set(h, lease, held);
    }

    /** Hands control over; an error puts the memory, but not the disk, back. */
    method TransitionController(h: nat, expected: Controller, target: Controller, epoch: nat, luck: Luck) returns (ok: bool)
      requires Valid()
      modifies this
      ensures Valid() && (ok <==> Allowed(old(View()), h, expected, epoch) && luck.Persists())
      ensures View() == if Allowed(old(View()), h, expected, epoch) then AfterTransition(old(View()), h, target, luck) else old(View())
    {
      if h !in leases || h !in begun || leases[h].identity.controller != expected
         || (epoch != 0 && epoch != leases[h].identity.controlEpoch + 1) {
        return false;
      }
      var before, lease := leases[h], HandedOver(leases[h], target);
      ghost var w := View();
      ok := Persist(h, lease, luck);
      if ok {
        Set(h, lease, Reanchored(w, h, lease, false, luck));
      } else {
        Set(h, before, Reanchored(w, h, before, w.leases[h].owing || luck.Activates(), luck));
      }
    }

    /** Ends the lease: its Run file goes, and the active file if it is still its
        own. The root is given up even if that fails. */
    method Close(h: nat, luck: Luck) returns (ok: bool)
      requires Valid() && InUse(View(), h)
      modifies this
      ensures Valid() && View() == AfterClose(old(View()), h, luck)
      ensures ok <==> h !in leases
    {
      var identity := leases[h].identity;
      Release(h);
      ok, crashed := false, crashed || luck.lock.Crash?;
      if luck.lock != Done {
        return;
      }
      ok := RemoveRecords(identity, luck);
      if ok {
        Drop(h);
      }
    }

    method RemoveRecords(identity: Identity, luck: Luck) returns (clean: bool)
      modifies `crashed, `active, `runs
      ensures clean <==> luck.record == Done && (old(active).None? || luck.removal == Done)
      ensures runs == if luck.record.Landed() then old(runs) - {identity.run} else old(runs)
      ensures active == if !luck.record.Crash? && old(active) == Some(identity) && luck.removal.Landed() then None else old(active)
      ensures crashed == (old(crashed) || luck.record.Crash? || (old(active).Some? && luck.removal.Crash?))
    {
      clean, crashed := false, crashed || luck.record.Crash?;
      if luck.record.Landed() {
        runs := runs - {identity.run};
      }
      if luck.record.Crash? {
        return;
      }
      clean := luck.record == Done && (active.None? || luck.removal == Done);
      RemoveActiveIfCurrent(identity, luck);
    }

    /** The next process: it holds no lease. */
    method Restart()
      requires Valid()
      modifies this
      ensures Valid() && View() == AfterRestart(old(View()))
    {
      leases, noted, holder, crashed := map[], map[], None, false;
    }

    /** One operation of some Run, if it can be made. */
    method Step(op: Op)
      requires Valid()
      modifies this
      ensures Valid() && View() == After(old(View()), op)
    {
      hide Persisted, AfterClose, Reanchored;
      if crashed {
        Restart();
        return;
      }
      match op {
        case TakeUpOp(key, run, attachment, policy, pruned) =>
          if holder.None? && key !in pruned {
            if key in sessions && sessions[key].key != key {
              sessions := sessions - pruned;
            } else {
              var _ := TakeUp(key, run, attachment, policy, pruned);
            }
          }
        case BeginOp(h, luck) =>
          if h in leases && h !in begun {
            var _ := Begin(h, luck);
          }
        case RotateOp(h, luck) =>
          if h in leases && h in begun {
            var _ := Rotate(h, luck);
          }
        case TransitionOp(h, expected, target, epoch, luck) =>
          var _ := TransitionController(h, expected, target, epoch, luck);
        case CloseOp(h, luck) =>
          if h in leases && h in begun {
            var _ := Close(h, luck);
          }
        case RestartOp => Restart();
      }
    }
  }

  /** Any operations of any Runs on one root, with any failures, crashes and
      restarts: the root is where the operations lead, the whole history of activated
      identities is fenced, and only its last one can be in the active file. */
  method Live(sessions: map<nat, State>, next: nat, ops: seq<Op>) returns (root: Root)
    requires Empty(World(sessions, None, map[], map[], None, next, false, [], {}))
    ensures fresh(root) && root.Valid()
    ensures root.View() == Reached(World(sessions, None, map[], map[], None, next, false, [], {}), ops)
    ensures Sound(root.View()) && AllTold(root.View())
  {
    root := new Root(sessions, next);
    ghost var w := root.View();
    var i := 0;
    while i < |ops|
      invariant 0 <= i <= |ops| && root.Valid() && root.View() == Reached(w, ops[..i])
    {
      root.Step(ops[i]);
      assert ops[..i + 1][..i] == ops[..i];
      i := i + 1;
    }
    assert ops[..|ops|] == ops;
    EveryRunIsSound(w, ops);
    AttachmentsTellIncarnations(w, ops);
  }

  /** A hand-over that activates; without the Run's file it is taken back in memory. */
  lemma HandOverActivates(w: World, h: nat, target: Controller, luck: Luck)
    requires InUse(w, h) && luck in {SMOOTH, RECORD_FAILS}
    ensures var v, after := AfterTransition(w, h, target, luck), HandedOver(w.leases[h].lease, target);
            && InUse(v, h) && v.leases[h].lease == (if luck == SMOOTH then after else w.leases[h].lease)
            && v.leases[h].owing == (luck != SMOOTH) && !v.crashed == !w.crashed
            && |v.history| == |w.history| + 1 && v.history[..|w.history|] == w.history
            && v.history[|w.history|].identity == after.identity && v.history[|w.history|].owing == w.leases[h].owing
  {
  }

  /** An owed activation is within reach: two different identities of one session are
      activated under the same control epoch. */
  method RecordFailureRepeatsAnEpoch(attachment: Attachment, policy: Policy) returns (root: Root)
    ensures fresh(root) && root.Valid() && |root.history| == 4
    ensures root.history[2].identity != root.history[3].identity && root.history[3].owing
    ensures root.history[2].identity.session == root.history[3].identity.session
    ensures root.history[2].identity.controlEpoch == root.history[3].identity.controlEpoch
  {
    hide LastBefore, AfterTransition, AfterBegin, AfterTakeUp;
    root := new Root(map[], 0);
    AcquiredSmoothly(root.View(), 7, 0, attachment, policy);
    var _, h := root.Acquire(7, 0, attachment, policy, {}, SMOOTH);
    assert |root.history| == 1 && InUse(root.View(), h) && root.noted[h].lease.identity.controller == Agent;
    HandOverActivates(root.View(), h, Nobody, SMOOTH);
    var _ := root.TransitionController(h, Agent, Nobody, 0, SMOOTH);
    HandOverActivates(root.View(), h, Human, RECORD_FAILS);
    var _ := root.TransitionController(h, Nobody, Human, 0, RECORD_FAILS);
    HandOverActivates(root.View(), h, Agent, SMOOTH);
    ghost var before := root.history;
    var _ := root.TransitionController(h, Nobody, Agent, 0, SMOOTH);
    assert root.history[2] == root.history[..|before|][2];
  }

  /** An acquired session: everything of it is as `TakenUp` has it. */
  lemma AcquiredSmoothly(w: World, key: nat, run: nat, attachment: Attachment, policy: Policy)
    requires MayTakeUp(w, key, {}) && !w.crashed
    ensures var h, lease := w.next + 2, TakenUp(w, key, run, attachment, policy);
            var v := AfterBegin(AfterTakeUp(w, key, run, attachment, policy, {}), h, SMOOTH);
            && MayTakeUp(w, key, {}) && !v.crashed && v.next == w.next + 3 && v.holder == Some(h)
            && InUse(v, h) && v.leases[h].lease == lease && !v.leases[h].owing && (forall g :: g in w.leases && g != h ==> g in v.leases && v.leases[g] == w.leases[g])
            && key in v.sessions && v.sessions[key] == lease.state
            && |v.history| == |w.history| + 1 && v.history[..|w.history|] == w.history
            && v.history[|w.history|].identity == lease.identity
  {
    assert w.sessions - {} == w.sessions;
  }

  lemma RotatedSmoothly(w: World, h: nat)
    requires InUse(w, h)
    ensures var v := AfterRotate(w, h, SMOOTH);
            && InUse(v, h) && (forall g :: g in w.leases && g != h ==> g in v.leases && v.leases[g] == w.leases[g])
            && |v.history| == |w.history| + 1 && v.history[..|w.history|] == w.history
            && v.history[|w.history|].identity == Rotated(w.leases[h].lease, w.next).identity
            && v.history[|w.history|].overtaken == Overtaken(w, h)
  {
  }

  /** A Run whose close cannot lock keeps its lease, and the next Run acquires the
      session beside it under another policy. */
  method CloseFails(attachment: Attachment, policy: Policy, other: Policy) returns (root: Root, a: nat, b: nat)
    requires policy != other
    ensures fresh(root) && root.Valid() && InUse(root.View(), a) && InUse(root.View(), b) && a != b
    ensures |root.history| == 2 && root.noted[a].lease.identity == root.history[0].identity
    ensures root.noted[b].lease.identity == root.history[1].identity
    ensures root.noted[a].lease.Agrees() && root.noted[b].lease.Agrees()
    ensures var first, second := root.history[0].identity, root.history[1].identity;
            && second.session == first.session && first.policy == policy && second.policy == other
            && second.sessionEpoch == first.sessionEpoch + 1 && second.controlEpoch == first.controlEpoch + 1
  {
    hide LastBefore, AfterBegin, AfterTakeUp;
    root := new Root(map[], 0);
    AcquiredSmoothly(root.View(), 7, 0, attachment, policy);
    var ok;
    ok, a := root.Acquire(7, 0, attachment, policy, {}, SMOOTH);
    ghost var first := root.history;
    var closed := root.Close(a, LOCK_FAILS);
    AcquiredSmoothly(root.View(), 7, 1, attachment, other);
    ok, b := root.Acquire(7, 1, attachment, other, {}, SMOOTH);
    assert root.history[0] == root.history[..|first|][0];
  }

  /** Then the first Run rotates. No persist has failed, and one session epoch has
      two policies under one control epoch. */
  method OvertakenLeaseBreaksTheFence(attachment: Attachment, policy: Policy, other: Policy) returns (root: Root, ok: bool)
    requires policy != other
    ensures fresh(root) && root.Valid() && ok && |root.history| == 3
    ensures var before, last := root.history[1].identity, root.history[2].identity;
            && last.session == before.session && last.controlEpoch == before.controlEpoch
            && last.sessionEpoch == before.sessionEpoch && last.policy != before.policy
  {
    hide LastBefore, AfterRotate;
    var a, b;
    root, a, b := CloseFails(attachment, policy, other);
    ghost var before := root.history;
    RotatedSmoothly(root.View(), a);
    ok := root.Rotate(a, SMOOTH);
    assert root.history[1] == root.history[..|before|][1];
  }

  /** If the second Run has rotated before that, both epochs even go back. */
  method OvertakenLeaseGoesBack(attachment: Attachment, policy: Policy, other: Policy) returns (root: Root, ok: bool)
    requires policy != other
    ensures fresh(root) && root.Valid() && ok && |root.history| == 4
    ensures var before, last := root.history[2].identity, root.history[3].identity;
            && last.session == before.session && last.controlEpoch < before.controlEpoch
            && last.sessionEpoch < before.sessionEpoch
  {
    hide LastBefore, AfterRotate;
    var a, b;
    root, a, b := CloseFails(attachment, policy, other);
    RotatedSmoothly(root.View(), b);
    ok := root.Rotate(b, SMOOTH);
    ghost var before := root.history;
    RotatedSmoothly(root.View(), a);
    var again := root.Rotate(a, SMOOTH);
    ok := ok && again;
    assert root.history[2] == root.history[..|before|][2];
  }
}

/** The reference-counted lock per Browser root: threads register with an entry,
    lock it, unlock it and deregister, in any interleaving. */
module RootLocks {
  import opened Basics

  /** Where a thread is, with the key it asked for and the entry it was given. */
  datatype Stage = Idle | Waiting(key: nat, entry: nat) | Holding(key: nat, entry: nat) | Leaving(key: nat, entry: nat)
  {
    /** Registered and not yet deregistered. */
    predicate Uses(e: nat) { !Idle? && entry == e }
  }

  function Users(stages: map<nat, Stage>, e: nat): set<nat> {
    set t | t in stages && stages[t].Uses(e)
  }

  /** The lock that the table implements: who holds each key. */
  ghost predicate Held(stages: map<nat, Stage>, key: nat, t: nat) {
    t in stages && stages[t].Holding? && stages[t].key == key
  }

  lemma UsersAfter(stages: map<nat, Stage>, t: nat, stage: Stage, e: nat)
    ensures Users(stages[t := stage], e) == if stage.Uses(e) then Users(stages, e) + {t} else Users(stages, e) - {t}
  {
  }

  lemma CountAfter(stages: map<nat, Stage>, t: nat, stage: Stage, e: nat)
    ensures |Users(stages[t := stage], e)| ==
              |Users(stages, e)| + (if stage.Uses(e) then 1 else 0) - (if t in stages && stages[t].Uses(e) then 1 else 0)
  {
    UsersAfter(stages, t, stage, e);
    if stage.Uses(e) && t in Users(stages, e) {
      assert Users(stages, e) + {t} == Users(stages, e);
    }
  }

  /** The map of live entries, and the count and the owner of every entry. */
  datatype Table = Table(entries: map<nat, nat>, refs: map<nat, nat>, owner: map<nat, Option<nat>>)

  /** A live entry is in use and belongs to one key. */
  ghost predicate Mapped(table: Table, key: nat) {
    key in table.entries ==>
      && table.entries[key] in table.refs && table.refs[table.entries[key]] > 0
      && forall other :: other in table.entries && table.entries[other] == table.entries[key] ==> other == key
  }

  ghost predicate Counted(refs: map<nat, nat>, stages: map<nat, Stage>, e: nat) {
    e in refs ==> refs[e] == |Users(stages, e)|
  }

  /** A registered thread uses the one live entry of its key. */
  ghost predicate Placed(table: Table, stages: map<nat, Stage>, t: nat) {
    t in stages && !stages[t].Idle? ==>
      && stages[t].key in table.entries && table.entries[stages[t].key] == stages[t].entry
      && stages[t].entry in table.owner && (stages[t].Holding? ==> table.owner[stages[t].entry] == Some(t))
  }

  ghost predicate Owned(owner: map<nat, Option<nat>>, stages: map<nat, Stage>, e: nat) {
    e in owner && owner[e].Some? ==>
      owner[e].value in stages && stages[owner[e].value].Holding? && stages[owner[e].value].entry == e
  }

  ghost predicate Sound(table: Table, stages: map<nat, Stage>) {
    && table.refs.Keys == table.owner.Keys
    && (forall key :: Mapped(table, key)) && (forall e :: Counted(table.refs, stages, e))
    && (forall t :: Placed(table, stages, t)) && (forall e :: Owned(table.owner, stages, e))
  }

  function Registered(table: Table, key: nat, entry: nat): Table {
    if key in table.entries then table.(refs := table.refs[entry := (if entry in table.refs then table.refs[entry] else 0) + 1])
    else Table(table.entries[key := entry], table.refs[entry := 1], table.owner[entry := None])
  }

  function Deregistered(table: Table, key: nat, entry: nat): Table
    requires entry in table.refs && table.refs[entry] > 0
  {
    table.(refs := table.refs[entry := table.refs[entry] - 1],
           entries := if table.refs[entry] == 1 then table.entries - {key} else table.entries)
  }

  lemma CountsAfterRegister(table: Table, stages: map<nat, Stage>, t: nat, key: nat, entry: nat, e: nat)
    requires Sound(table, stages) && (t in stages ==> stages[t].Idle?)
    requires if key in table.entries then entry == table.entries[key] else entry !in table.refs
    ensures Counted(Registered(table, key, entry).refs, stages[t := Waiting(key, entry)], e)
  {
    assert Mapped(table, key) && Counted(table.refs, stages, e);
    CountAfter(stages, t, Waiting(key, entry), e);
    if e == entry && entry !in table.refs {
      forall other | other in stages
        ensures !stages[other].Uses(entry)
      {
        assert Placed(table, stages, other);
      }
      assert Users(stages, entry) == {};
    }
  }

  lemma RegisterKeeps(table: Table, stages: map<nat, Stage>, t: nat, key: nat, entry: nat)
    requires Sound(table, stages) && (t in stages ==> stages[t].Idle?)
    requires if key in table.entries then entry == table.entries[key] else entry !in table.refs
    ensures Sound(Registered(table, key, entry), stages[t := Waiting(key, entry)])
  {
    var after, later := Registered(table, key, entry), stages[t := Waiting(key, entry)];
    assert Mapped(table, key);
    forall other | other in table.entries
      ensures table.entries[other] in table.refs
    {
      assert Mapped(table, other);
    }
    forall other
      ensures Placed(after, later, other)
    {
      assert Placed(table, stages, other);
    }
    forall e
      ensures Counted(after.refs, later, e) && Owned(after.owner, later, e)
    {
      CountsAfterRegister(table, stages, t, key, entry, e);
      assert Owned(table.owner, stages, e);
    }
    forall other
      ensures Mapped(after, other)
    {
      assert Mapped(table, other);
    }
  }

  /** Who still uses an entry that a thread deregisters from. */
  lemma CountsAfterDeregister(table: Table, stages: map<nat, Stage>, t: nat, key: nat, entry: nat)
    requires Sound(table, stages) && t in stages && stages[t] == Leaving(key, entry)
    ensures key in table.entries && table.entries[key] == entry && entry in table.refs && table.refs[entry] > 0
    ensures table.refs[entry] - 1 == |Users(stages[t := Idle], entry)|
    ensures table.refs[entry] > 1 <==> exists other :: other != t && other in stages && stages[other].Uses(entry)
  {
    assert Placed(table, stages, t) && Mapped(table, key) && Counted(table.refs, stages, entry);
    CountAfter(stages, t, Idle, entry);
    UsersAfter(stages, t, Idle, entry);
    var users := Users(stages[t := Idle], entry);
    if users != {} {
      var other :| other in users;
      assert other != t && other in stages && stages[other].Uses(entry);
    } else {
      forall other | other != t && other in stages
        ensures !stages[other].Uses(entry)
      {
        assert other !in users;
      }
    }
  }

  lemma DeregisterKeeps(table: Table, stages: map<nat, Stage>, t: nat, key: nat, entry: nat)
    requires Sound(table, stages) && t in stages && stages[t] == Leaving(key, entry)
    ensures entry in table.refs && table.refs[entry] > 0
    ensures Sound(Deregistered(table, key, entry), stages[t := Idle])
    ensures table.refs[entry] > 1 <==> exists other :: other != t && other in stages && stages[other].Uses(entry)
  {
    CountsAfterDeregister(table, stages, t, key, entry);
    var after, later := Deregistered(table, key, entry), stages[t := Idle];
    forall other
      ensures Placed(after, later, other)
    {
      assert Placed(table, stages, other);
    }
    forall e
      ensures Counted(after.refs, later, e) && Owned(after.owner, later, e)
    {
      CountAfter(stages, t, Idle, e);
      assert Counted(table.refs, stages, e) && Owned(table.owner, stages, e);
    }
    forall other
      ensures Mapped(after, other)
    {
      assert Mapped(table, other) && Mapped(table, key);
    }
  }

  /** Locking or unlocking an entry. */
  lemma OwnerChangeKeeps(table: Table, stages: map<nat, Stage>, t: nat, key: nat, entry: nat, stage: Stage)
    requires Sound(table, stages) && t in stages
    requires || (stages[t] == Waiting(key, entry) && stage == Holding(key, entry) && entry in table.owner && table.owner[entry].None?)
             || (stages[t] == Holding(key, entry) && stage == Leaving(key, entry))
    ensures Sound(table.(owner := table.owner[entry := if stage.Holding? then Some(t) else None]), stages[t := stage])
  {
    var after := table.(owner := table.owner[entry := if stage.Holding? then Some(t) else None]);
    var later := stages[t := stage];
    assert Placed(table, stages, t);
    forall other
      ensures Placed(after, later, other)
    {
      assert Placed(table, stages, other);
      assert other in stages && stages[other].Holding? && stages[other].entry == entry ==> table.owner[entry] == Some(other);
    }
    forall e
      ensures Counted(after.refs, later, e) && Owned(after.owner, later, e)
    {
      CountAfter(stages, t, stage, e);
      assert Counted(table.refs, stages, e) && Owned(table.owner, stages, e);
    }
    forall other
      ensures Mapped(after, other)
    {
      assert Mapped(table, other);
    }
    assert Mapped(table, key);
    assert Counted(table.refs, stages, entry);
  }

  /** A locked entry's key is held, an unlocked one's is not. */
  lemma OwnerHolds(table: Table, stages: map<nat, Stage>, key: nat)
    requires Sound(table, stages) && key in table.entries
    ensures table.entries[key] in table.owner
    ensures table.owner[table.entries[key]].Some? <==> exists t :: Held(stages, key, t)
    ensures forall t: nat :: Held(stages, key, t) ==> table.owner[table.entries[key]] == Some(t)
  {
    var e := table.entries[key];
    assert Mapped(table, key) && Owned(table.owner, stages, e);
    if table.owner[e].Some? {
      var t := table.owner[e].value;
      assert Placed(table, stages, t) && Mapped(table, stages[t].key);
      assert Held(stages, key, t);
    }
    forall t: nat | Held(stages, key, t)
      ensures table.owner[e] == Some(t)
    {
      assert Placed(table, stages, t);
    }
  }

  class LockTable {
    var entries: map<nat, nat>
    var refs: map<nat, nat>
    var owner: map<nat, Option<nat>>
    ghost var stages: map<nat, Stage>

    constructor ()
      ensures Valid() && entries == map[] && refs == map[] && owner == map[] && stages == map[]
    {
      entries, refs, owner, stages := map[], map[], map[], map[];
    }

    ghost function View(): Table
      reads this
    {
      Table(entries, refs, owner)
    }

    ghost function State(): State
      reads this
    {
      StateOf(View(), stages)
    }

    ghost predicate Valid()
      reads this
    {
      Sound(View(), stages)
    }

    ghost function At(t: nat): Stage
      reads this
    {
      if t in stages then stages[t] else Idle
    }

    /** Under the table's mutex: finds or makes the entry and counts itself in. */
    method Register(t: nat, key: nat, fresh_: nat) returns (entry: nat)
      requires Valid() && At(t).Idle? && fresh_ !in refs
      modifies this
      ensures Valid() && stages == old(stages)[t := Waiting(key, entry)]
      ensures entry == if key in old(entries) then old(entries)[key] else fresh_
      ensures View() == Registered(old(View()), key, entry)
    {
      assert Mapped(View(), key);
      entry := if key in entries then entries[key] else fresh_;
      RegisterKeeps(View(), stages, t, key, entry);
      if key !in entries {
        entries, refs, owner := entries[key := entry], refs[entry := 0], owner[entry := None];
      }
      refs := refs[entry := refs[entry] + 1];
      stages := stages[t := Waiting(key, entry)];
      assert refs == Registered(old(View()), key, entry).refs;
    }

    /** Locks the entry, unless somebody has it; then nobody else holds the key. */
    method Enter(t: nat, key: nat, entry: nat) returns (entered: bool)
      requires Valid() && At(t) == Waiting(key, entry)
      modifies `owner, `stages
      ensures Valid()
      ensures entered <==> forall other :: !old(Held(stages, key, other))
      ensures entry in old(owner) && (entered <==> old(owner)[entry].None?)
      ensures owner == if entered then old(owner)[entry := Some(t)] else old(owner)
      ensures stages == if entered then old(stages)[t := Holding(key, entry)] else old(stages)
    {
      assert Placed(View(), stages, t);
      OwnerHolds(View(), stages, key);
      entered := owner[entry].None?;
      if entered {
        OwnerChangeKeeps(View(), stages, t, key, entry, Holding(key, entry));
        owner, stages := owner[entry := Some(t)], stages[t := Holding(key, entry)];
      }
    }

    /** Unlocks the entry, still counted in. */
    method Unlock(t: nat, key: nat, entry: nat)
      requires Valid() && At(t) == Holding(key, entry)
      modifies `owner, `stages
      ensures Valid() && stages == old(stages)[t := Leaving(key, entry)] && owner == old(owner)[entry := None]
    {
      OwnerChangeKeeps(View(), stages, t, key, entry, Leaving(key, entry));
      owner, stages := owner[entry := None], stages[t := Leaving(key, entry)];
    }

    /** Under the table's mutex: counts itself out, and removes an unused entry. */
    method Deregister(t: nat, key: nat, entry: nat)
      requires Valid() && At(t) == Leaving(key, entry)
      modifies `entries, `refs, `stages
      ensures Valid() && stages == old(stages)[t := Idle] && entry in old(refs) && old(refs)[entry] > 0
      ensures View() == Deregistered(old(View()), key, entry)
      ensures entries == if exists other :: other != t && other in old(stages) && old(stages)[other].Uses(entry)
                         then old(entries) else old(entries) - {key}
    {
      DeregisterKeeps(View(), stages, t, key, entry);
      refs := refs[entry := refs[entry] - 1];
      if refs[entry] == 0 {
        entries := entries - {key};
      }
      stages := stages[t := Idle];
    }
  }

  // ---------- What the table guarantees ----------

  /** At most one thread holds a key. */
  lemma Exclusive(table: Table, stages: map<nat, Stage>, key: nat, t: nat, other: nat)
    requires Sound(table, stages) && Held(stages, key, t) && Held(stages, key, other)
    ensures t == other
  {
    assert Placed(table, stages, t);
    OwnerHolds(table, stages, key);
  }

  /** An entry is in the map exactly while some thread uses it; `refs` counts the
      threads that asked for its key, and they all use this one entry. */
  lemma EntryExactlyWhileUsed(table: Table, stages: map<nat, Stage>, key: nat)
    requires Sound(table, stages)
    ensures key in table.entries <==> exists t :: t in stages && !stages[t].Idle? && stages[t].key == key
    ensures key in table.entries ==>
              && table.entries[key] in table.refs
              && table.refs[table.entries[key]] == |set t | t in stages && !stages[t].Idle? && stages[t].key == key|
  {
    forall t | t in stages && !stages[t].Idle? && stages[t].key == key
      ensures key in table.entries
    {
      assert Placed(table, stages, t);
    }
    if key in table.entries {
      var users := Users(stages, table.entries[key]);
      assert Mapped(table, key) && Counted(table.refs, stages, table.entries[key]);
      forall t | t in stages
        ensures t in users <==> !stages[t].Idle? && stages[t].key == key
      {
        assert Placed(table, stages, t);
      }
      assert users == set t | t in stages && !stages[t].Idle? && stages[t].key == key;
      var t :| t in users;
    }
  }

  /** No wake-up is lost: if a thread waits for a key that nobody holds, its entry
      is unlocked, so that it can enter. */
  lemma WaiterCanEnter(table: Table, stages: map<nat, Stage>, t: nat)
    requires Sound(table, stages) && t in stages && stages[t].Waiting?
    ensures stages[t].entry in table.owner
    ensures table.owner[stages[t].entry] == None <==> forall other :: !Held(stages, stages[t].key, other)
  {
    assert Placed(table, stages, t);
    OwnerHolds(table, stages, stages[t].key);
  }

  /** When everybody has left the map is empty. */
  lemma NothingIsLeft(table: Table, stages: map<nat, Stage>)
    requires Sound(table, stages) && forall t :: t in stages ==> stages[t].Idle?
    ensures table.entries == map[]
  {
    forall key | key in table.entries
      ensures false
    {
      EntryExactlyWhileUsed(table, stages, key);
    }
  }

  // ---------- Whole runs ----------

  datatype Op = RegisterOp(key: nat) | EnterOp | UnlockOp | DeregisterOp

  datatype State = State(table: Table, stages: map<nat, Stage>)
  {
    function At(t: nat): Stage { if t in stages then stages[t] else Idle }
  }

  function StateOf(table: Table, stages: map<nat, Stage>): State { State(table, stages) }

  const EMPTY := State(Table(map[], map[], map[]), map[])

  /** A thread takes its next step if it is the one asked for. */
  function After(s: State, t: nat, op: Op, fresh_: nat): State {
    match s.At(t)
    case Idle =>
      if !op.RegisterOp? then s
      else
        var entry := if op.key in s.table.entries then s.table.entries[op.key] else fresh_;
        State(Registered(s.table, op.key, entry), s.stages[t := Waiting(op.key, entry)])
    case Waiting(key, entry) =>
      if !op.EnterOp? || entry !in s.table.owner || s.table.owner[entry].Some? then s
      else State(s.table.(owner := s.table.owner[entry := Some(t)]), s.stages[t := Holding(key, entry)])
    case Holding(key, entry) =>
      if !op.UnlockOp? then s
      else State(s.table.(owner := s.table.owner[entry := None]), s.stages[t := Leaving(key, entry)])
    case Leaving(key, entry) =>
      if !op.DeregisterOp? || entry !in s.table.refs || s.table.refs[entry] == 0 then s
      else State(Deregistered(s.table, key, entry), s.stages[t := Idle])
  }

  /** The state after these steps; the n-th one would make entry number n. */
  function Reached(steps: seq<(nat, Op)>): State {
    if steps == [] then EMPTY
    else
      var n := |steps| - 1;
      After(Reached(steps[..n]), steps[n].0, steps[n].1, n)
  }

  lemma StepKeeps(s: State, t: nat, op: Op, fresh_: nat)
    requires Sound(s.table, s.stages) && fresh_ !in s.table.refs
    ensures var a := After(s, t, op, fresh_); Sound(a.table, a.stages) && a.table.refs.Keys <= s.table.refs.Keys + {fresh_}
  {
    hide Sound;
    match s.At(t) {
      case Idle =>
        if op.RegisterOp? {
          var entry := if op.key in s.table.entries then s.table.entries[op.key] else fresh_;
          EntryIsCounted(s, op.key);
          RegisterKeeps(s.table, s.stages, t, op.key, entry);
        }
      case Waiting(key, entry) =>
        if op.EnterOp? && entry in s.table.owner && s.table.owner[entry].None? {
          OwnerChangeKeeps(s.table, s.stages, t, key, entry, Holding(key, entry));
        }
      case Holding(key, entry) =>
        if op.UnlockOp? { OwnerChangeKeeps(s.table, s.stages, t, key, entry, Leaving(key, entry)); }
      case Leaving(key, entry) =>
        if op.DeregisterOp? { DeregisterKeeps(s.table, s.stages, t, key, entry); }
    }
  }

  lemma EntryIsCounted(s: State, key: nat)
    requires Sound(s.table, s.stages)
    ensures key in s.table.entries ==> s.table.entries[key] in s.table.refs
  {
    assert Mapped(s.table, key);
  }

  /** Every interleaving of any threads leaves the table sound, so that all that is
      said of sound tables holds after any steps. */
  lemma {:induction false} EveryInterleavingIsSound(steps: seq<(nat, Op)>)
    ensures var s := Reached(steps); Sound(s.table, s.stages) && forall e :: e in s.table.refs ==> e < |steps|
  {
    if steps != [] {
      var n := |steps| - 1;
      EveryInterleavingIsSound(steps[..n]);
      StepKeeps(Reached(steps[..n]), steps[n].0, steps[n].1, n);
    }
  }

  method Step(table: LockTable, t: nat, op: Op, stage: Stage, fresh_: nat) returns (next: Stage)
    requires table.Valid() && table.At(t) == stage && fresh_ !in table.refs
    modifies table
    ensures table.Valid() && table.At(t) == next
    ensures table.State() == After(old(table.State()), t, op, fresh_)
    ensures table.stages == if next == stage then old(table.stages) else old(table.stages)[t := next]
  {
    hide Sound;
    next := stage;
    if op.RegisterOp? && stage.Idle? {
      var entry := table.Register(t, op.key, fresh_);
      next := Waiting(op.key, entry);
    } else if op.EnterOp? && stage.Waiting? {
      var entered := table.Enter(t, stage.key, stage.entry);
      next := if entered then Holding(stage.key, stage.entry) else stage;
    } else if op.UnlockOp? && stage.Holding? {
      table.Unlock(t, stage.key, stage.entry);
      next := Leaving(stage.key, stage.entry);
    } else if op.DeregisterOp? && stage.Leaving? {
      table.Deregister(t, stage.key, stage.entry);
      next := Idle;
    }
  }

  /** Any interleaving of any threads leads the table where its steps lead, and
      keeps it sound. */
  method Run(steps: seq<(nat, Op)>) returns (table: LockTable)
    ensures fresh(table) && table.Valid() && table.State() == Reached(steps)
  {
    table := new LockTable();
    var stages: map<nat, Stage> := map[];
    var i := 0;
    while i < |steps|
      invariant 0 <= i <= |steps| && table.Valid() && fresh(table)
      invariant stages == table.stages && table.State() == Reached(steps[..i])
    {
      EveryInterleavingIsSound(steps[..i]);
      var t := steps[i].0;
      var stage := if t in stages then stages[t] else Idle;
      var next := Step(table, t, steps[i].1, stage, i);
      stages := if next == stage then stages else stages[t := next];
      assert steps[..i + 1][..i] == steps[..i];
      i := i + 1;
    }
    assert steps[..|steps|] == steps;
  }
}

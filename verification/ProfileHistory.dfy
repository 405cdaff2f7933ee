/** Whole lives of a stored Profile: its creation, then any number of checkpoints and
    loads, with any system call failing, or the machine stopping at it and restarting
    on whatever survived. */
module ProfileHistory {
  import opened Basics
  import opened Aead
  import opened ProfileDisk
  import opened ProfileStore

  datatype Op = CheckpointOp(input: Input, plan: seq<Outcome>) | LoadOp(plan: seq<Outcome>) | PowerCut

  /** What can be seen of one operation. `reached` says that a checkpoint had got as
      far as its pointer. */
  datatype Seen = Wrote(text: Bytes, verdict: Verdict, reached: bool) | Read(loaded: Loaded) | Restarted

  /** The disk, and whether the machine has stopped. */
  datatype State = State(disk: Image, stopped: bool)

  /** The operation moves a Profile away that it could have opened: one of its reads
      fails, five of a checkpoint and six of a load, and the move itself does not. */
  ghost predicate Lossy(op: Op) {
    match op
    case CheckpointOp(_, plan) => FailsThenGoesOn(plan, 5)
    case LoadOp(plan) => FailsThenGoesOn(plan, 6)
    case PowerCut => false
  }

  /** What one operation has done, as far as the contracts of the store tell. */
  ghost predicate Performed(before: State, op: Op, entry: Seen, after: State) {
    match entry
    case Restarted => (op.PowerCut? || before.stopped) && Survives(before.disk, after.disk) && !after.stopped
    case Read(loaded) =>
      && op.LoadOp? && !before.stopped
      && (loaded.Corrupt? ==> ReadAll(op.plan, 6).0 != Done)
      && if before.disk.profile.live.None? then after.disk == before.disk else Opened(before.disk, op, after.disk)
    case Wrote(text, verdict, reached) =>
      && op.CheckpointOp? && !before.stopped && text == op.input.payload
      && (if before.disk.profile.live.None? then after.disk == before.disk
          else if Lossy(op) then Opened(before.disk, op, after.disk)
          else after.disk.profile == before.disk.profile && after.disk.retired == before.disk.retired)
      && (reached <==> verdict != Error(Unreadable) && after.disk.folder.current != before.disk.folder.current)
  }

  /** The Profile is where it was, or has been moved away. */
  ghost predicate Opened(before: Image, op: Op, after: Image) {
    if Lossy(op) then
      && MovedAway(before.profile, before.folder, before.retired, after.profile, after.retired)
      && after.folder == EMPTY_FOLDER && after.next == before.next
    else after == before
  }

  /** The texts that may be stored after these operations. */
  function Possible(initial: Bytes, seen: seq<Seen>): set<Bytes> {
    if seen == [] then {initial}
    else
      var before := Possible(initial, seen[..|seen| - 1]);
      match seen[|seen| - 1]
      case Wrote(text, verdict, reached) =>
        if verdict == Success then {text} else if reached then before + {text} else before
      case _ => before
  }

  /** The Profile may be gone: the first restart may have lost its entry, or an
      operation has moved it away. Found once more, it is there. */
  ghost predicate MayBeMissing(ops: seq<Op>, seen: seq<Seen>)
    requires |seen| <= |ops|
  {
    if seen == [] then false
    else
      var n := |seen| - 1;
      var before := MayBeMissing(ops, seen[..n]);
      match seen[n]
      case Restarted => before || Restarted !in seen[..n]
      case Read(loaded) => !loaded.Plain? && (before || Lossy(ops[n]))
      case Wrote(_, verdict, _) => verdict != Success && (before || Lossy(ops[n]))
  }

  /** A load finds one of the possible texts, or nothing where the Profile may be
      gone; it reports corruption only if one of its own reads did not succeed. */
  ghost predicate Permitted(initial: Bytes, ops: seq<Op>, seen: seq<Seen>, i: nat)
    requires |seen| <= |ops|
  {
    i < |seen| && seen[i].Read? ==>
      match seen[i].loaded
      case Plain(text) => text in Possible(initial, seen[..i])
      case Corrupt => ops[i].LoadOp? && ReadAll(ops[i].plan, 6).0 != Done
      case NotFound => MayBeMissing(ops, seen[..i])
      case _ => false
  }

  /** A power cut now could lose the whole Profile. */
  ghost predicate CanVanish(disk: Image) {
    exists after :: Survives(disk, after) && after.profile.live == None
  }

  /** Every directory that a crash could bring back. */
  ghost predicate Restorable(disk: Image) {
    && disk.profile.Valid() && disk.folder.Valid()
    && forall k :: Some(k) in disk.profile.after && Some(k) != disk.profile.live ==> k in disk.retired && disk.retired[k].Valid()
  }

  /** A choice of what survives each crash. */
  ghost predicate ChoosesSurvivors(choose: (nat, Image) -> Image) {
    forall n: nat, disk: Image :: Restorable(disk) ==> Survives(disk, choose(n, disk))
  }

  /** The Profile is there, firmly, its entry durable exactly if the machine has
      restarted; or it is gone, and a crash could bring it back as firm as it was. */
  ghost predicate Established(store: Store, restarted: bool, missing: bool, texts: set<Bytes>)
    reads store
  {
    && store.Safe(texts)
    && (store.profile.live.Some? ==>
          && Firm(store.folder) && (None in store.profile.after <==> !restarted)
          && store.profile.after <= {None, store.profile.live})
    && (store.profile.live.None? ==>
          && missing && store.folder == EMPTY_FOLDER
          && forall k :: Some(k) in store.profile.after ==> k in store.retired && Firm(store.retired[k]))
  }

  /** While the directory is there and firm, the Profile opens. */
  lemma EstablishedOpens(store: Store, roots: set<nat>, restarted: bool, missing: bool, texts: set<Bytes>)
    requires Established(store, restarted, missing, texts) && store.generation in roots
    ensures match store.Result(roots)
            case Plain(text) => store.profile.live.Some? && text in texts
            case NotFound => store.profile.live.None? && !store.legacy
            case NeedsMigration => store.profile.live.None? && store.legacy
            case _ => false
    ensures forall passes: nat :: store.Reads(roots, passes) == if store.profile.live.Some? then 4 + passes else 1
  {
    LiveOpens(store.Self(), roots, store.folder, texts);
    assert store.profile.live.Some? ==> store.folder.current.live.Some?;
  }

  /** Where no earlier directory can come back, only the present one matters. */
  lemma FolderIsAll(store: Store, texts: set<Bytes>, wide: set<Bytes>)
    requires store.Safe(wide) && store.profile.after <= {None, store.profile.live}
    requires Sound(store.Self(), store.folder, texts)
    ensures store.Safe(texts)
  {
  }

  lemma ProfileCanVanish(disk: Image)
    requires disk.profile.live.Some? && disk.profile.Valid()
    ensures CanVanish(disk) <==> None in disk.profile.after
  {
    if None in disk.profile.after {
      assert Survives(disk, Image(Cell(None, {None}), EMPTY_FOLDER, map[], disk.next));
    }
  }

  method CheckpointStep(store: Store, input: Input, roots: set<nat>, ghost restarted: bool, ghost missing: bool, ghost texts: set<Bytes>)
    returns (verdict: Verdict, reached: bool)
    requires store.generation in roots && ValidInput(input) && !store.crashed && !store.closed
    requires Established(store, restarted, missing, texts)
    modifies store
    ensures !store.closed
    ensures Performed(State(old(store.Disk()), false), CheckpointOp(input, old(store.plan)), Wrote(input.payload, verdict, reached),
                      State(store.Disk(), store.crashed))
    ensures Established(store, restarted, verdict != Success && (missing || Lossy(CheckpointOp(input, old(store.plan)))),
              if verdict == Success then {input.payload} else if reached then texts + {input.payload} else texts)
  {
    EstablishedOpens(store, roots, restarted, missing, texts);
    var before := store.folder.current;
    verdict := store.Checkpoint(roots, input, texts);
    reached := verdict != Error(Unreadable) && store.folder.current != before;
    if verdict == Success {
      FolderIsAll(store, {input.payload}, texts + {input.payload});
    }
  }

  method LoadStep(store: Store, roots: set<nat>, ghost restarted: bool, ghost missing: bool, ghost texts: set<Bytes>)
    returns (loaded: Loaded)
    requires store.generation in roots && !store.crashed && !store.closed
    requires Established(store, restarted, missing, texts)
    modifies store
    ensures !store.closed
    ensures Performed(State(old(store.Disk()), false), LoadOp(old(store.plan)), Read(loaded), State(store.Disk(), store.crashed))
    ensures Established(store, restarted, !loaded.Plain? && (missing || Lossy(LoadOp(old(store.plan)))), texts)
    ensures match loaded
            case Plain(text) => text in texts
            case Corrupt => ReadAll(old(store.plan), 6).0 != Done
            case NotFound => missing && !store.legacy
            case NeedsMigration => missing && store.legacy
            case KeyUnavailable => false
  {
    EstablishedOpens(store, roots, restarted, missing, texts);
    loaded := store.Load(roots, texts);
  }

  method PowerCutStep(store: Store, survivor: Image, roots: set<nat>, ghost restarted: bool, ghost missing: bool, ghost texts: set<Bytes>)
    requires store.generation in roots && Established(store, restarted, missing, texts) && !store.closed
    requires Survives(store.Disk(), survivor)
    modifies store
    ensures !store.closed && !store.crashed && store.Disk() == survivor
    ensures Established(store, true, missing || !restarted, texts)
  {
    if survivor.profile.live.Some? {
      var k := survivor.profile.live.value;
      SurvivorOpens(store.Self(), roots, if store.profile.live == Some(k) then store.folder else store.retired[k], texts,
                    survivor.folder);
    }
    store.Restart(survivor, [], texts);
  }

  method Step(store: Store, op: Op, round: nat, choose: (nat, Image) -> Image, roots: set<nat>,
              ghost initial: Bytes, ghost ops: seq<Op>, ghost seen: seq<Seen>)
    returns (entry: Seen)
    requires ChoosesSurvivors(choose) && store.generation in roots && !store.closed && !store.legacy
    requires |seen| < |ops| && op == ops[|seen|] && (op.CheckpointOp? ==> ValidInput(op.input))
    requires Established(store, Restarted in seen, MayBeMissing(ops, seen), Possible(initial, seen))
    modifies store
    ensures !store.closed
    ensures Performed(State(old(store.Disk()), old(store.crashed)), op, entry, State(store.Disk(), store.crashed))
    ensures Established(store, Restarted in seen + [entry], MayBeMissing(ops, seen + [entry]), Possible(initial, seen + [entry]))
    ensures Permitted(initial, ops, seen + [entry], |seen|)
  {
    ghost var texts, restarted, missing := Possible(initial, seen), Restarted in seen, MayBeMissing(ops, seen);
    if store.crashed || op.PowerCut? {
      PowerCutStep(store, choose(round, store.Disk()), roots, restarted, missing, texts);
      entry := Restarted;
    } else {
      store.plan := op.plan;
      if op.LoadOp? {
        var loaded := LoadStep(store, roots, restarted, missing, texts);
        entry := Read(loaded);
      } else {
        var verdict, reached := CheckpointStep(store, op.input, roots, restarted, missing, texts);
        entry := Wrote(op.input.payload, verdict, reached);
      }
    }
    assert (seen + [entry])[..|seen|] == seen;
  }

  /** A new Profile, firm but for its entry. */
  method Creation(store: Store, key: nat, keyDrawn: bool, input: Input) returns (verdict: Verdict)
    requires store.Safe({}) && store.profile == Cell(None, {None}) && !store.crashed && !store.closed && ValidInput(input)
    modifies store
    ensures !store.closed && store.Safe({input.payload})
    ensures verdict == Success ==> !store.legacy && Established(store, false, false, {input.payload})
    ensures store.folder.current == EMPTY_FOLDER.current ==> store.Safe({})
    ensures old(store.Quiet() && !store.legacy) && keyDrawn && input.ids != [] && store.Encryptable(input) ==>
              verdict == Success && store.Quiet()
  {
    verdict := store.Create(key, keyDrawn, input, {});
    assert {} + {input.payload} == {input.payload};
  }

  /** The history of a Profile from its creation on; after a crash nothing runs until
      the machine restarts. Loads find what they may, each operation does to the disk
      what it may, and while the Profile is there, a power cut could lose it if and
      only if the machine has not restarted since the creation: no checkpoint or load
      makes the entry of its directory durable. */
  method Live(store: Store, key: nat, keyDrawn: bool, input: Input, ops: seq<Op>, choose: (nat, Image) -> Image, roots: set<nat>)
    returns (verdict: Verdict, seen: seq<Seen>, ghost states: seq<State>)
    requires store.Safe({}) && store.profile == Cell(None, {None}) && !store.crashed && !store.closed && ValidInput(input)
    requires ChoosesSurvivors(choose) && store.generation in roots
    requires forall op :: op in ops && op.CheckpointOp? ==> ValidInput(op.input)
    modifies store
    ensures verdict == Success ==>
              && |seen| == |ops| && |states| == |ops| + 1 && states[|ops|] == State(store.Disk(), store.crashed)
              && (forall i :: 0 <= i < |ops| ==> Performed(states[i], ops[i], seen[i], states[i + 1]))
              && (forall i :: Permitted(input.payload, ops, seen, i))
              && (store.profile.live.Some? ==> (CanVanish(store.Disk()) <==> Restarted !in seen))
              && (store.profile.live.None? ==> MayBeMissing(ops, seen))
              && store.Safe(Possible(input.payload, seen))
  {
    verdict := Creation(store, key, keyDrawn, input);
    seen, states := [], [];
    if verdict != Success {
      return;
    }
    states := [State(store.Disk(), store.crashed)];
    var i := 0;
    while i < |ops|
      invariant 0 <= i == |seen| <= |ops| && !store.closed
      invariant |states| == i + 1 && states[i] == State(store.Disk(), store.crashed)
      invariant forall j :: 0 <= j < i ==> Performed(states[j], ops[j], seen[j], states[j + 1])
      invariant Established(store, Restarted in seen, MayBeMissing(ops, seen), Possible(input.payload, seen))
      invariant forall j :: Permitted(input.payload, ops, seen, j)
    {
      var entry := Step(store, ops[i], i, choose, roots, input.payload, ops, seen);
      forall j: nat
        ensures Permitted(input.payload, ops, seen + [entry], j)
      {
        assert Permitted(input.payload, ops, seen, j);
        assert j <= |seen| ==> (seen + [entry])[..j] == seen[..j];
      }
      seen, states := seen + [entry], states + [State(store.Disk(), store.crashed)];
      i := i + 1;
    }
    if store.profile.live.Some? {
      ProfileCanVanish(store.Disk());
    }
  }

  /** A creation that fails or is interrupted anywhere, and the next start: what loads
      is nothing or the whole payload, and the payload only if the creation had got as
      far as its pointer. */
  method InterruptedCreation(store: Store, key: nat, keyDrawn: bool, input: Input, choose: (nat, Image) -> Image, roots: set<nat>)
    returns (verdict: Verdict, reached: bool, loaded: Loaded)
    requires store.Safe({}) && store.profile == Cell(None, {None}) && !store.crashed && !store.closed && ValidInput(input)
    requires ChoosesSurvivors(choose) && store.generation in roots
    modifies store
    ensures loaded.Plain? ==> reached && loaded.text == input.payload
    ensures loaded != KeyUnavailable && (verdict == Success ==> loaded != Corrupt)
    ensures (loaded == NeedsMigration ==> store.legacy) && (loaded == NotFound ==> !store.legacy)
  {
    verdict := Creation(store, key, keyDrawn, input);
    reached := store.folder.current != EMPTY_FOLDER.current;
    ghost var texts := if reached then {input.payload} else {};
    var survivor := choose(0, store.Disk());
    if verdict == Success && survivor.profile.live.Some? {
      SurvivorOpens(store.Self(), roots, store.folder, texts, survivor.folder);
    }
    store.Restart(survivor, [], texts);
    LiveOpens(store.Self(), roots, store.folder, texts);
    loaded := store.Load(roots, texts);
  }

  /** An intact Profile can be lost to a read error: of the pointer while it is
      loaded, or of the metadata while a checkpoint authenticates the old text, and
      then the old and the new text are both gone from the store. */
  method ReadErrorLosesProfile(store: Store, key: nat, first: Input, second: Input, roots: set<nat>, loading: bool)
    requires store.Safe({}) && store.profile == Cell(None, {None}) && store.Quiet() && !store.closed && !store.legacy
    requires ValidInput(first) && store.Encryptable(first) && first.ids != [] && ValidInput(second) && store.generation in roots
    modifies store
    ensures store.profile.live.None?
  {
    var verdict := Creation(store, key, true, first);
    EstablishedOpens(store, roots, false, false, {first.payload});
    assert verdict == Success && store.Result(roots) == Plain(first.payload);
    if loading {
      store.plan := [Done, Failed];
      assert FailsAt(store.plan, 6, 1);
      var loaded := store.Load(roots, {first.payload});
    } else {
      store.plan := [Done, Done, Failed];
      assert FailsAt(store.plan, 5, 2);
      verdict := store.Checkpoint(roots, second, {first.payload});
      assert verdict == Error(Unreadable);
    }
  }

  /** A store without the Profile foretells what a creation will do: it finds nothing
      exactly where a Profile can be made, and asks for a migration exactly where a
      creation would. */
  method LoadForetellsCreate(store: Store, key: nat, input: Input, roots: set<nat>) returns (loaded: Loaded, verdict: Verdict)
    requires store.Safe({}) && store.profile == Cell(None, {None}) && store.Quiet() && !store.closed
    requires ValidInput(input) && store.Encryptable(input) && input.ids != []
    modifies store
    ensures loaded == NotFound <==> verdict == Success
    ensures loaded == NeedsMigration <==> verdict == Error(MigrationRequired)
    ensures loaded == NotFound || loaded == NeedsMigration
  {
    loaded := store.Load(roots, {});
    verdict := store.Create(key, true, input, {});
  }
}

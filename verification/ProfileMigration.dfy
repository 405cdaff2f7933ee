/** Offline migration of a Profile from a store of the former contract: reserve a
    destination behind a marker, convert, authenticate, write a receipt, sync, and
    only then remove the marker. Any step may fail or be the last one. */
module ProfileMigration {
  import opened Basics
  import opened Aead
  import opened ProfileDisk
  import P = Payload
  import PS = ProfileStore

  const MAX_PLAINTEXT: nat := 0x1C00_0000

  /** What the destination path names: nothing, this migration's reservation, or
      a directory made by someone else. */
  datatype Entry = Absent | Reserved | Foreign

  /** Identifies one stored checkpoint; hashes are taken to be injective. */
  datatype Fingerprint = Fingerprint(checkpoint: Name, files: Files, mtime: nat)

  /** The stored Profile of the former contract; `text` is what authenticating and
      decrypting it yields, if it does authenticate. */
  datatype Source = Source(fingerprint: Fingerprint, text: Option<Bytes>)

  datatype Request = Request(operation: nat, source: Fingerprint, anchor: nat)

  /** `complete` stands for the receipt's status, stage and outcome flags. */
  datatype Receipt = Receipt(request: Request, target: Fingerprint, complete: bool)

  /** The stored Profile in the reservation; `stray` if there is any file that the
      inventory does not allow. */
  datatype Target = Target(image: PS.Image, mtime: Cell<nat>, stray: bool)

  const EMPTY_TARGET := Target(PS.Image(Cell(None, {None}), EMPTY_FOLDER, map[], 0), Cell(0, {0}), false)

  datatype Disk = Disk(dest: Cell<Entry>, marker: Cell<Option<Request>>, receipt: Cell<Option<Receipt>>, target: Target)

  // ---------- Reading a target ----------

  function TargetResult(owner: Owner, target: Target): Loaded
    requires owner.vault.Ideal()
  {
    if target.image.profile.live.None? then NotFound
    else FolderResult(owner.vault, owner.identity, {owner.generation}, target.image.folder)
  }

  function PrintOf(target: Target): Option<Fingerprint> {
    var f := target.image.folder;
    if f.current.live.None? then None
    else
      var entry := f.At(f.current.live.value).live;
      if entry.None? || entry.value !in f.snapshots then None
      else Some(Fingerprint(f.current.live.value, f.snapshots[entry.value].files, target.mtime.live))
  }

  /** Only the current checkpoint is there. */
  predicate Inventory(target: Target) {
    var f := target.image.folder;
    !target.stray && forall name :: name in f.entries && f.entries[name].live.Some? ==> Some(name) == f.current.live
  }

  /** The target decrypts, within the size limit, to exactly this text. */
  predicate Yields(owner: Owner, target: Target, text: Bytes)
    requires owner.vault.Ideal()
  {
    TargetResult(owner, target) == Plain(text) && |text| <= MAX_PLAINTEXT
  }

  /** What the final verification of a target against its receipt establishes. */
  predicate Verified(owner: Owner, source: Source, receipt: Option<Receipt>, target: Target)
    requires owner.vault.Ideal()
  {
    && receipt.Some? && receipt.value.complete && source.text.Some?
    && receipt.value.request.source == source.fingerprint
    && receipt.value.target.mtime == receipt.value.request.anchor
    && PrintOf(target) == Some(receipt.value.target) && Inventory(target)
    && Yields(owner, target, source.text.value)
  }

  // ---------- Durability ----------

  function SyncTree(target: Target): Target {
    var f := target.image.folder;
    var solid := SyncFolder(SyncCheckpoints(f)).(snapshots := map i | i in f.snapshots :: f.snapshots[i].(solid := true));
    target.(image := target.image.(profile := target.image.profile.Synced(), folder := solid), mtime := target.mtime.Synced())
  }

  ghost predicate DurableTarget(target: Target) {
    var f := target.image.folder;
    && target.image.profile.after == {target.image.profile.live} && target.mtime.after == {target.mtime.live}
    && f.current.after == {f.current.live} && f.checkpoints.after == {f.checkpoints.live}
    && (forall name :: f.At(name).after == {f.At(name).live})
    && (forall i :: i in f.snapshots ==> f.snapshots[i].solid)
  }

  ghost predicate ValidTarget(target: Target) {
    && target.mtime.Valid() && target.image.profile.Valid() && target.image.folder.Valid()
    && forall k :: Some(k) in target.image.profile.after && Some(k) != target.image.profile.live ==>
         k in target.image.retired && target.image.retired[k].Valid()
  }

  ghost predicate TargetSurvives(before: Target, after: Target) {
    && PS.Survives(before.image, after.image) && after.stray == before.stray
    && exists v :: v in before.mtime.after && after.mtime == Cell(v, {v})
  }

  /** The reservation's own files are found again when its entry is; a marker or a
      receipt is found in one of its possible states. */
  ghost predicate DiskSurvives(before: Disk, after: Disk) {
    && (exists v :: v in before.dest.after && after.dest == Cell(v, {v}))
    && (exists v :: v in before.marker.after && after.marker == Cell(v, {v}))
    && (exists v :: v in before.receipt.after && after.receipt == Cell(v, {v}))
    && TargetSurvives(before.target, after.target)
  }

  /** The target is complete, whatever a crash does now. */
  ghost predicate Complete(owner: Owner, source: Source, disk: Disk)
    requires owner.vault.Ideal()
  {
    && disk.receipt.after == {disk.receipt.live} && DurableTarget(disk.target)
    && Verified(owner, source, disk.receipt.live, disk.target)
  }

  /** The heart of the protocol: no state in which the destination could be found
      without its marker holds anything but a complete target. */
  ghost predicate SafeDisk(owner: Owner, source: Source, disk: Disk)
    requires owner.vault.Ideal()
  {
    && disk.dest.Valid() && disk.marker.Valid() && disk.receipt.Valid() && ValidTarget(disk.target)
    && (disk.dest.live == Absent ==> disk.dest.after == {Absent})
    && (disk.dest.live == Reserved && disk.marker.live.Some? ==> disk.marker.after == {disk.marker.live})
    && (Reserved in disk.dest.after && None in disk.marker.after ==> Complete(owner, source, disk))
  }

  lemma SyncTreeChangesNothing(owner: Owner, target: Target)
    requires owner.vault.Ideal()
    ensures DurableTarget(SyncTree(target)) && PrintOf(SyncTree(target)) == PrintOf(target)
    ensures TargetResult(owner, SyncTree(target)) == TargetResult(owner, target)
    ensures Inventory(SyncTree(target)) <==> Inventory(target)
    ensures ValidTarget(target) ==> ValidTarget(SyncTree(target))
  {
    var f, g := target.image.folder, SyncTree(target).image.folder;
    assert forall name :: g.At(name) == f.At(name).Synced();
    assert forall i :: i in f.snapshots ==> g.snapshots[i].files == f.snapshots[i].files;
    assert forall name :: name in f.entries ==> g.entries[name].live == f.entries[name].live;
  }

  lemma DurableTargetSurvives(owner: Owner, before: Target, after: Target)
    requires owner.vault.Ideal() && DurableTarget(before) && TargetSurvives(before, after)
    requires before.image.profile.live.Some?
    ensures DurableTarget(after) && PrintOf(after) == PrintOf(before)
    ensures TargetResult(owner, after) == TargetResult(owner, before)
    ensures Inventory(before) ==> Inventory(after)
  {
    var f, g := before.image.folder, after.image.folder;
    assert after.image.profile.live == before.image.profile.live;
    assert FolderSurvives(f, g);
    assert forall name :: g.At(name) == f.At(name);
    if Inventory(before) {
      forall name | name in g.entries && g.entries[name].live.Some?
        ensures Some(name) == g.current.live
      {
        assert g.At(name) == f.At(name);
      }
    }
  }

  lemma SurvivorIsValidTarget(before: Target, after: Target)
    requires ValidTarget(before) && TargetSurvives(before, after)
    ensures ValidTarget(after)
  {
    if after.image.profile.live.Some? {
      SurvivorIsValid(
        if after.image.profile.live == before.image.profile.live then before.image.folder
        else before.image.retired[after.image.profile.live.value],
        after.image.folder);
    }
  }

  /** A crash need not lose anything: the disk as the running system sees it is
      among those that may survive. */
  lemma NothingNeedBeLost(disk: Disk)
    requires disk.dest.Valid() && disk.marker.Valid() && disk.receipt.Valid() && ValidTarget(disk.target)
    requires disk.target.image.profile.live.Some?
    ensures DiskSurvives(disk, Disk(disk.dest.Synced(), disk.marker.Synced(), disk.receipt.Synced(), SyncTree(disk.target)))
  {
    var f, g := disk.target.image.folder, SyncTree(disk.target).image.folder;
    assert forall name :: g.At(name) == Cell(f.At(name).live, {f.At(name).live}) && f.At(name).live in f.At(name).after;
    assert g.checkpoints == f.checkpoints.Synced() && g.current == f.current.Synced();
    assert FolderSurvives(f, g);
  }

  /** Safety survives every crash: nothing an interruption leaves behind exposes an
      unverified target. */
  lemma CrashIsSafe(owner: Owner, source: Source, before: Disk, after: Disk)
    requires owner.vault.Ideal() && SafeDisk(owner, source, before) && DiskSurvives(before, after)
    ensures SafeDisk(owner, source, after)
  {
    SurvivorIsValidTarget(before.target, after.target);
    if after.dest.live == Reserved && after.marker.live == None {
      assert Reserved in before.dest.after && None in before.marker.after;
      DurableTargetSurvives(owner, before.target, after.target);
    }
  }

  lemma FirmOpens(owner: Owner, folder: Folder, text: Bytes)
    requires owner.vault.Ideal() && Sound(owner, folder, {text}) && Firm(folder)
    ensures FolderResult(owner.vault, owner.identity, {owner.generation}, folder) == Plain(text)
  {
    LiveOpens(owner, {owner.generation}, folder, {text});
  }

  // ---------- The commands ----------

  /** The plaintext can be read, encrypted and stored. */
  ghost predicate Storable(identity: Identity, keyDrawn: bool, input: PS.Input) {
    && keyDrawn && input.ids != [] && input.prefix.Some? && !input.broken && input.writes == []
    && P.Message(input.prefix.value, identity, input.payload).Fits()
  }

  predicate Fresh(old_: Fingerprint, new_: Fingerprint) {
    && old_.checkpoint != new_.checkpoint && old_.files.metadata != new_.files.metadata
    && old_.files.payload != new_.files.payload
  }

  /** A finished run of this request stands in the destination. */
  predicate Standing(owner: Owner, source: Source, disk: Disk, request: Request)
    requires owner.vault.Ideal()
  {
    && request.source == source.fingerprint && disk.dest.live == Reserved
    && (disk.marker.live == None || disk.marker.live == Some(request))
    && disk.receipt.live.Some? && disk.receipt.live.value.request == request
    && Verified(owner, source, disk.receipt.live, disk.target)
  }

  /** Nothing of the source's checkpoint is found again in the target: not its identifier,
      its metadata or its encrypted payload. */
  predicate Renewed(source: Source, target: Target) {
    var f := target.image.folder;
    && f.current.live.Some? && f.At(f.current.live.value).live.Some? && f.At(f.current.live.value).live.value in f.snapshots
    && var files := f.snapshots[f.At(f.current.live.value).live.value].files;
       && f.current.live.value != source.fingerprint.checkpoint
       && files.metadata != source.fingerprint.files.metadata && files.payload != source.fingerprint.files.payload
  }

  /** The request that the receipt is for. */
  function RequestOf(disk: Disk): Option<Request> {
    if disk.receipt.live.None? then None else Some(disk.receipt.live.value.request)
  }

  class Migration {
    const identity: Identity
    const generation: nat

    var source: Source
    var vault: Vault
    var disk: Disk
    var plan: seq<Outcome>
    var crashed: bool

    constructor (identity: Identity, generation: nat, source: Source, vault: Vault)
      requires vault.Ideal()
      ensures this.source == source && Safe() && !crashed
    {
      this.identity, this.generation, this.source, this.vault := identity, generation, source, vault;
      disk := Disk(Cell(Absent, {Absent}), Cell(None, {None}), Cell(None, {None}), EMPTY_TARGET);
      plan, crashed := [], false;
    }

    function Self(): Owner
      reads this
    {
      Owner(vault, identity, generation)
    }

    ghost function View(): State
      reads this
    {
      State(vault, disk, crashed)
    }

    ghost predicate Safe()
      reads this
    {
      vault.Ideal() && SafeDisk(Self(), source, disk)
    }

    /** The destination is reserved for this request, and its marker is durable. */
    ghost predicate Pending(request: Request)
      reads this
    {
      && vault.Ideal() && disk.dest.Valid() && disk.receipt.Valid() && ValidTarget(disk.target)
      && disk.dest.live == Reserved && disk.marker == Cell(Some(request), {Some(request)})
    }

    method Next() returns (outcome: Outcome)
      modifies `plan, `crashed
      ensures old(crashed) ==> crashed && outcome == Failed
      ensures !old(crashed) ==> crashed == (outcome == Crash)
      ensures old(plan) == [] && !old(crashed) ==> outcome == Done && plan == []
    {
      var call := NextCall(plan, crashed);
      outcome, plan, crashed := call.0, call.1, call.2;
    }

    /** A read, a check of the outside world or a call that leaves the disk alone. */
    method Ask() returns (ok: bool)
      modifies `plan, `crashed
      ensures ok ==> !crashed
      ensures old(plan) == [] && !old(crashed) ==> ok && plan == []
    {
      var outcome := Next();
      ok := outcome == Done;
    }

    /** A call that turns the disk into `target`; a crash may find it done. */
    method Try(target: Disk) returns (ok: bool)
      modifies `plan, `crashed, `disk
      ensures ok ==> !crashed && disk == target
      ensures !ok ==> disk == old(disk) || (crashed && disk == target)
      ensures old(plan) == [] && !old(crashed) ==> ok && plan == []
    {
      var outcome := Next();
      ok := outcome == Done;
      if outcome != Failed {
        disk := target;
      }
    }

    /** A synchronisation: only its success makes anything durable. */
    method TrySync(target: Disk) returns (ok: bool)
      modifies `plan, `crashed, `disk
      ensures ok ==> !crashed && disk == target
      ensures !ok ==> disk == old(disk)
      ensures old(plan) == [] && !old(crashed) ==> ok && plan == []
    {
      var outcome := Next();
      ok := outcome == Done;
      if ok {
        disk := target;
      }
    }

    /** Opens, fingerprints and authenticates the source, twice. */
    method OpenSource(request: Request) returns (ok: bool)
      modifies `plan, `crashed
      ensures ok ==> !crashed && request.source == source.fingerprint && source.text.Some?
      ensures old(plan) == [] && !old(crashed) ==>
                plan == [] && !crashed && (ok <==> request.source == source.fingerprint && source.text.Some?)
    {
      ok := Ask();
      if !ok || source.fingerprint != request.source || source.text.None? {
        return false;
      }
      ok := Ask();
    }

    /** Builds the reservation under a private name, marker first, and moves it to
        the destination unless something is there. Nothing is ever taken back. */
    method Reserve(request: Request) returns (ok: bool)
      requires Safe()
      modifies `plan, `crashed, `disk
      ensures Safe()
      ensures ok ==> Pending(request) && !crashed && disk.target == EMPTY_TARGET && disk.receipt == Cell(None, {None})
      ensures old(disk.dest.live) != Absent ==> !ok && disk == old(disk)
      ensures old(plan) == [] && !old(crashed) && old(disk.dest.live) == Absent ==> ok && plan == []
    {
      ok := Ask();
      if !ok {
        return;
      }
      var outcome := Next();
      if outcome != Done {
        return false;
      }
      var marker: Cell<Option<Request>> := Cell(None, {None}).Set(Some(request));
      outcome := Next();
      if outcome != Done {
        return false;
      }
      marker := marker.Synced();
      if disk.dest.live != Absent {
        return false;
      }
      ok := Try(Disk(disk.dest.Set(Reserved), marker, Cell(None, {None}), EMPTY_TARGET));
      if !ok {
        return;
      }
      ok := TrySync(disk.(dest := disk.dest.Synced()));
    }

    /** A store on the empty reservation creates the Profile. */
    method CreateTarget(key: nat, keyDrawn: bool, input: PS.Input) returns (image: PS.Image, ok: bool)
      requires vault.Ideal() && PS.ValidInput(input) && !crashed
      modifies `vault, `plan, `crashed
      ensures vault.Ideal() && vault.Extends(old(vault)) && image.profile.Valid() && image.folder.Valid()
      ensures forall k :: Some(k) in image.profile.after && Some(k) != image.profile.live ==>
                k in image.retired && image.retired[k].Valid()
      ensures ok ==>
                && !crashed && image.profile.live.Some?
                && FolderResult(vault, identity, {generation}, image.folder) == Plain(input.payload)
      ensures old(plan) == [] && Storable(identity, keyDrawn, input) ==>
                ok && plan == [] && forall name :: Some(name) != image.folder.current.live ==> image.folder.At(name).after == {None}
    {
      var store := new PS.Store(identity, generation, false, true, vault, plan);
      var verdict := store.Create(key, keyDrawn, input, {});
      if verdict == PS.Success {
        FirmOpens(store.Self(), store.folder, input.payload);
      }
      vault, plan, crashed, image := store.vault, store.plan, store.crashed, store.Disk();
      ok := verdict == PS.Success && !crashed;
    }

    /** Creates the Profile in the reserved store from the source's plaintext. */
    method Convert(request: Request, key: nat, keyDrawn: bool, input: PS.Input) returns (ok: bool)
      requires Pending(request) && PS.ValidInput(input) && !crashed
      requires source.text.Some? && input.payload == source.text.value
      requires disk.target == EMPTY_TARGET
      modifies `vault, `plan, `crashed, `disk
      ensures Pending(request) && vault.Extends(old(vault)) && disk.receipt == old(disk.receipt)
      ensures ok ==> !crashed && Opens(disk.target, source.text.value)
      ensures old(plan) == [] && Storable(identity, keyDrawn, input) ==> ok && plan == [] && Inventory(disk.target)
    {
      var image;
      image, ok := CreateTarget(key, keyDrawn, input);
      disk := disk.(target := disk.target.(image := image));
    }

    ghost predicate Opens(target: Target, text: Bytes)
      requires vault.Ideal()
      reads this
    {
      TargetResult(Self(), target) == Plain(text)
    }

    /** The target is authenticated and compared with the source, which is checked
        once more. */
    method CompareTexts() returns (ok: bool)
      requires vault.Ideal() && source.text.Some?
      modifies `plan, `crashed
      ensures ok ==> !crashed && Yields(Self(), disk.target, source.text.value)
      ensures old(plan) == [] && !old(crashed) ==>
                plan == [] && !crashed && (ok <==> Yields(Self(), disk.target, source.text.value))
    {
      ok := Ask();
      if !ok || !Yields(Self(), disk.target, source.text.value) {
        return false;
      }
      ok := Ask();
    }

    /** Dates the pointer by the retention anchor. */
    method SetRetention(request: Request) returns (ok: bool)
      requires Pending(request)
      modifies `plan, `crashed, `disk
      ensures Pending(request) && disk.receipt == old(disk.receipt) && disk.target.image == old(disk.target.image)
      ensures disk.target.stray == old(disk.target.stray)
      ensures ok ==> !crashed && disk.target.mtime.live == request.anchor
      ensures old(plan) == [] && !old(crashed) ==> ok && plan == []
    {
      var dated := disk.target.(mtime := disk.target.mtime.Set(request.anchor));
      ok := Try(disk.(target := dated));
      if !ok {
        return;
      }
      ok := TrySync(disk.(target := dated.(mtime := dated.mtime.Synced())));
    }

    /** Fingerprints the target, requires it to be alone and fresh, and writes the
        receipt, which must not exist. */
    method WriteReceipt(request: Request) returns (ok: bool)
      requires Pending(request) && request.source == source.fingerprint && source.text.Some?
      requires Yields(Self(), disk.target, source.text.value) && disk.target.mtime.live == request.anchor
      modifies `plan, `crashed, `disk
      ensures Pending(request) && disk.target == old(disk.target)
      ensures ok ==> !crashed && Verified(Self(), source, disk.receipt.live, disk.target)
      ensures ok ==> disk.receipt.live.value.request == request && Renewed(source, disk.target)
      ensures old(plan) == [] && !old(crashed) && Inventory(disk.target) && old(disk.receipt.live.None?) ==>
                plan == [] && PrintOf(disk.target).Some? && (ok <==> Fresh(source.fingerprint, PrintOf(disk.target).value))
    {
      ok := Ask();
      var found := PrintOf(disk.target);
      if !ok || found.None? || !Inventory(disk.target) || !Fresh(source.fingerprint, found.value) || disk.receipt.live.Some? {
        return false;
      }
      ok := Try(disk.(receipt := disk.receipt.Set(Some(Receipt(request, found.value, true)))));
    }

    /** Syncs every file and directory of the target and the destination's parent. */
    method SyncTarget(request: Request) returns (ok: bool)
      requires Pending(request) && Verified(Self(), source, disk.receipt.live, disk.target)
      modifies `plan, `crashed, `disk
      ensures Pending(request) && Verified(Self(), source, disk.receipt.live, disk.target)
      ensures PrintOf(disk.target) == old(PrintOf(disk.target)) && disk.receipt.live == old(disk.receipt.live)
      ensures Renewed(source, disk.target) == old(Renewed(source, disk.target))
      ensures ok ==> !crashed && Complete(Self(), source, disk)
      ensures old(plan) == [] && !old(crashed) ==> ok && plan == []
    {
      SyncTreeChangesNothing(Self(), disk.target);
      ok := TrySync(Disk(disk.dest.Synced(), disk.marker.Synced(), disk.receipt.Synced(), SyncTree(disk.target)));
    }

    /** Removes the marker. `ready` once it is gone, durably or not. */
    method Activate(request: Request) returns (ok: bool, ready: bool)
      requires Pending(request) && Complete(Self(), source, disk) && !crashed
      modifies `plan, `crashed, `disk
      ensures Safe() && Complete(Self(), source, disk) && disk.dest.live == Reserved
      ensures disk.target == old(disk.target) && disk.receipt == old(disk.receipt) && (ok ==> !crashed)
      ensures ready ==> disk.marker.live == None
      ensures ok ==> ready && disk.marker == Cell(None, {None}) && disk.dest.after == {Reserved}
      ensures old(plan) == [] && !old(crashed) ==> ok && plan == []
    {
      ok := Ask();
      if !ok || disk.marker.live != Some(request) {
        return false, false;
      }
      ready := Try(disk.(marker := disk.marker.Set(None)));
      if !ready {
        return false, false;
      }
      ok := TrySync(disk.(marker := disk.marker.Synced(), dest := disk.dest.Synced()));
    }

    /** Everything between reservation and activation. */
    method Prepare(request: Request, key: nat, keyDrawn: bool, input: PS.Input) returns (ok: bool)
      requires Pending(request) && PS.ValidInput(input) && !crashed
      requires request.source == source.fingerprint && source.text.Some? && input.payload == source.text.value
      requires disk.target == EMPTY_TARGET && disk.receipt == Cell(None, {None})
      modifies `vault, `plan, `crashed, `disk
      ensures Pending(request) && vault.Extends(old(vault))
      ensures ok ==> !crashed && Complete(Self(), source, disk) && Some(request) == RequestOf(disk) && Renewed(source, disk.target)
      ensures old(plan) == [] && Storable(identity, keyDrawn, input) && |input.payload| <= MAX_PLAINTEXT ==>
                && plan == [] && PrintOf(disk.target).Some?
                && (ok <==> Fresh(source.fingerprint, PrintOf(disk.target).value))
    {
      hide SafeDisk, Verified, Complete, PrintOf;
      ok := Convert(request, key, keyDrawn, input);
      if ok { ok := CompareTexts(); }
      if ok { ok := SetRetention(request); }
      if ok { ok := WriteReceipt(request); }
      if ok { ok := SyncTarget(request); }
    }

    method Execute(request: Request, key: nat, keyDrawn: bool, input: PS.Input) returns (ok: bool, ready: bool)
      requires Safe() && !crashed && PS.ValidInput(input)
      requires source.text.Some? ==> input.payload == source.text.value
      modifies `vault, `plan, `crashed, `disk
      ensures Safe() && vault.Extends(old(vault))
      ensures ready ==> Complete(Self(), source, disk) && disk.marker.live == None && disk.dest.live == Reserved
      ensures ok ==> request.source == source.fingerprint && RequestOf(disk) == Some(request) && Renewed(source, disk.target)
      ensures ok ==> !crashed && ready && disk.marker.after == {None} && disk.dest.after == {Reserved}
      ensures old(disk.dest.live) != Absent ==> !ok && disk == old(disk) && vault == old(vault)
      ensures old(plan) == [] && old(disk.dest.live) == Absent && Storable(identity, keyDrawn, input) && |input.payload| <= MAX_PLAINTEXT &&
              request.source == source.fingerprint && source.text.Some? ==>
                PrintOf(disk.target).Some? && (ok <==> Fresh(source.fingerprint, PrintOf(disk.target).value))
    {
      hide Verified, Complete, TargetResult, PrintOf;
      ready := false;
      ok := OpenSource(request);
      if ok { ok := Reserve(request); }
      if ok { ok := Prepare(request, key, keyDrawn, input); }
      if ok { ok := Ask(); }
      if ok { ok, ready := Activate(request); }
    }

    /** Check and finalize: verify everything anew and, to finalize, sync and
        activate. Undisturbed, they succeed on exactly the standing runs. */
    method Verify(request: Request, finalize: bool) returns (ok: bool, ready: bool)
      requires Safe() && !crashed
      modifies `plan, `crashed, `disk
      ensures Safe()
      ensures ready ==> disk.dest.live == Reserved && disk.marker.live == None && Complete(Self(), source, disk)
      ensures ok ==> !crashed && disk.dest.live == Reserved && (ready <==> disk.marker.live == None)
      ensures ok && finalize ==> ready
      ensures !finalize ==> disk == old(disk) && (ready ==> ok)
      ensures old(plan) == [] ==> !crashed && (ok <==> old(Standing(Self(), source, disk, request)))
    {
      ready := false;
      ok := OpenSource(request);
      if !ok || disk.dest.live != Reserved {
        return false, false;
      }
      var pending := disk.marker.live.Some?;
      if (pending && disk.marker.live != Some(request)) || disk.receipt.live.None? || disk.receipt.live.value.request != request {
        return false, false;
      }
      ok := CompareTexts();
      if !ok || !Verified(Self(), source, disk.receipt.live, disk.target) {
        return false, false;
      }
      ok := Ask();
      if !ok {
        return;
      }
      if finalize && pending {
        ok := SyncTarget(request);
        if ok {
          ok, ready := Activate(request);
        }
      } else {
        ready := !pending;
      }
    }

    // ---------- What happens around the commands ----------

    /** Opening the destination as an ordinary store: refused while the marker is
        there. A missing directory is made. */
    method OpenStore() returns (usable: bool)
      requires Safe() && !crashed
      modifies `disk
      ensures Safe()
      ensures usable && disk.dest.live == Reserved ==> Complete(Self(), source, disk)
      ensures !usable <==> old(disk).dest.live == Reserved && old(disk).marker.live.Some?
      ensures disk == if old(disk).dest.live == Absent then old(disk).(dest := old(disk).dest.Set(Foreign)) else old(disk)
    {
      if disk.dest.live == Absent {
        disk := disk.(dest := disk.dest.Set(Foreign));
      }
      usable := disk.dest.live != Reserved || disk.marker.live.None?;
    }

    /** Between commands anything may happen to the receipt and the target, until
        the marker is removed. */
    method Tamper(receipt: Cell<Option<Receipt>>, target: Target)
      requires Safe() && None !in disk.marker.after && receipt.Valid() && ValidTarget(target)
      modifies `disk
      ensures Safe() && disk == old(disk).(receipt := receipt, target := target)
    {
      disk := disk.(receipt := receipt, target := target);
    }

    method Restart(survivor: Disk)
      requires Safe() && DiskSurvives(disk, survivor)
      modifies `plan, `crashed, `disk
      ensures Safe() && !crashed && disk == survivor && plan == []
    {
      CrashIsSafe(Self(), source, disk, survivor);
      disk, plan, crashed := survivor, [], false;
    }
  }

  // ---------- Whole runs ----------

  datatype Command = Execute(request: Request, key: nat, keyDrawn: bool, input: PS.Input, plan: seq<Outcome>)
                   | Check(request: Request, plan: seq<Outcome>)
                   | Finalize(request: Request, plan: seq<Outcome>)
                   | Tamper(receipt: Cell<Option<Receipt>>, target: Target)
                   | OpenStore
                   | PowerCut

  /** The piped plaintext is the source's, and tampering leaves a disk. */
  ghost predicate Runnable(source: Source, command: Command) {
    match command
    case Execute(_, _, _, input, _) =>
      PS.ValidInput(input) && (source.text.Some? ==> input.payload == source.text.value)
    case Tamper(receipt, target) => receipt.Valid() && ValidTarget(target)
    case _ => true
  }

  /** A choice of what survives each crash. */
  ghost predicate ChoosesSurvivors(choose: (nat, Disk) -> Disk) {
    forall n: nat, disk: Disk ::
      disk.dest.Valid() && disk.marker.Valid() && disk.receipt.Valid() && ValidTarget(disk.target) ==>
        DiskSurvives(disk, choose(n, disk))
  }

  /** The keys and the disk, and whether the machine has stopped. */
  datatype State = State(vault: Vault, disk: Disk, stopped: bool)

  /** What a command reports: success, that the target is ready, or that the
      destination has opened as a store. */
  datatype Answer = Answer(ok: bool, ready: bool, usable: bool)

  const NOTHING := Answer(false, false, false)

  /** Whose Profile is migrated, under which generation of root key, and from where. */
  datatype Task = Task(identity: Identity, generation: nat, source: Source)
  {
    function Owner(vault: Vault): Owner { ProfileDisk.Owner(vault, identity, generation) }
  }

  /** A target that is reported ready is complete, durable and without its marker. */
  ghost predicate ReadyMeansComplete(task: Task, answer: Answer, after: State)
    requires after.vault.Ideal()
  {
    answer.ready ==>
      Complete(task.Owner(after.vault), task.source, after.disk) && after.disk.marker.live == None && after.disk.dest.live == Reserved
  }

  /** What one command does and reports; while the machine is down only a restart
      does anything. */
  ghost predicate Performed(task: Task, before: State, command: Command, answer: Answer, after: State)
    requires before.vault.Ideal() && after.vault.Ideal()
  {
    && after.vault.Extends(before.vault)
    && if command.PowerCut? || before.stopped then answer == NOTHING && DiskSurvives(before.disk, after.disk) && !after.stopped
       else ReadyMeansComplete(task, answer, after) && PerformedRunning(task, before, command, answer, after)
  }

  /** A command that succeeds reports the target ready exactly if its marker is gone. */
  predicate ReadyExactly(answer: Answer, after: State) {
    answer.ok ==> !after.stopped && after.disk.dest.live == Reserved && (answer.ready <==> after.disk.marker.live == None)
  }

  ghost predicate PerformedRunning(task: Task, before: State, command: Command, answer: Answer, after: State)
    requires before.vault.Ideal() && after.vault.Ideal()
  {
    match command
    case Execute(request, _, keyDrawn, input, plan) =>
      && !answer.usable
      && (answer.ok ==> answer.ready && after.disk.marker.after == {None} && after.disk.dest.after == {Reserved})
      && (answer.ok ==> Renewed(task.source, after.disk.target))
      && ReadyExactly(answer, after)
      && (before.disk.dest.live != Absent ==> !answer.ok && after.disk == before.disk)
      && (plan == [] && before.disk.dest.live == Absent && Storable(task.identity, keyDrawn, input) &&
          |input.payload| <= MAX_PLAINTEXT && request.source == task.source.fingerprint && task.source.text.Some? ==>
            && PrintOf(after.disk.target).Some?
            && (answer.ok <==> Fresh(task.source.fingerprint, PrintOf(after.disk.target).value)))
    case Check(request, plan) =>
      && !answer.usable && after.disk == before.disk && (answer.ready ==> answer.ok) && ReadyExactly(answer, after)
      && (plan == [] ==> (answer.ok <==> Standing(task.Owner(before.vault), task.source, before.disk, request)))
    case Finalize(request, plan) =>
      && !answer.usable && (answer.ok ==> answer.ready) && ReadyExactly(answer, after)
      && (plan == [] ==> (answer.ok <==> Standing(task.Owner(before.vault), task.source, before.disk, request)))
    case Tamper(receipt, target) =>
      && answer == NOTHING && !after.stopped
      && after.disk == if None !in before.disk.marker.after then before.disk.(receipt := receipt, target := target) else before.disk
    case OpenStore =>
      && !after.stopped && answer == Answer(false, false, !(before.disk.dest.live == Reserved && before.disk.marker.live.Some?))
      && after.disk == if before.disk.dest.live == Absent then before.disk.(dest := before.disk.dest.Set(Foreign)) else before.disk
    case PowerCut => false
  }

  method Perform(migration: Migration, command: Command, survivor: Disk) returns (answer: Answer)
    requires migration.Safe() && Runnable(migration.source, command) && DiskSurvives(migration.disk, survivor)
    modifies migration
    ensures migration.Safe() && migration.source == old(migration.source)
    ensures Performed(Task(migration.identity, migration.generation, migration.source), old(migration.View()), command, answer,
                      migration.View())
    ensures answer.usable && migration.disk.dest.live == Reserved ==>
              Complete(migration.Self(), migration.source, migration.disk)
  {
    hide Complete, Standing, PrintOf, SafeDisk, Storable;
    if command.PowerCut? || migration.crashed {
      migration.Restart(survivor);
      answer := NOTHING;
    } else {
      answer := PerformRunning(migration, command);
    }
  }

  method PerformRunning(migration: Migration, command: Command) returns (answer: Answer)
    requires migration.Safe() && Runnable(migration.source, command) && !migration.crashed && !command.PowerCut?
    modifies migration
    ensures migration.Safe() && migration.source == old(migration.source) && migration.vault.Extends(old(migration.vault))
    ensures var task := Task(migration.identity, migration.generation, migration.source);
            && ReadyMeansComplete(task, answer, migration.View())
            && PerformedRunning(task, old(migration.View()), command, answer, migration.View())
    ensures answer.usable && migration.disk.dest.live == Reserved ==>
              Complete(migration.Self(), migration.source, migration.disk)
  {
    hide Complete, Standing, PrintOf, SafeDisk, Storable;
    answer := NOTHING;
    match command {
      case Execute(request, key, keyDrawn, input, plan) =>
        migration.plan := plan;
        var ok, ready := migration.Execute(request, key, keyDrawn, input);
        answer := Answer(ok, ready, false);
      case Check(request, plan) =>
        migration.plan := plan;
        var ok, ready := migration.Verify(request, false);
        answer := Answer(ok, ready, false);
      case Finalize(request, plan) =>
        migration.plan := plan;
        var ok, ready := migration.Verify(request, true);
        answer := Answer(ok, ready, false);
      case Tamper(receipt, target) =>
        if None !in migration.disk.marker.after {
          migration.Tamper(receipt, target);
        }
      case OpenStore =>
        var usable := migration.OpenStore();
        answer := Answer(false, false, usable);
    }
  }

  /** Any commands, interrupted anywhere, with crashes and tampering between them,
      up to the first time the destination opens as a store: each does what it may,
      and if it is the reservation that opens, the target is complete, durable,
      matches its receipt and decrypts to the source's plaintext. */
  method Run(migration: Migration, commands: seq<Command>, choose: (nat, Disk) -> Disk)
    returns (answers: seq<Answer>, ghost states: seq<State>)
    requires migration.Safe() && ChoosesSurvivors(choose)
    requires forall c :: c in commands ==> Runnable(migration.source, c)
    modifies migration
    ensures migration.Safe() && migration.source == old(migration.source)
    ensures |answers| <= |commands| && |states| == |answers| + 1
    ensures states[0] == old(migration.View()) && states[|answers|] == migration.View()
    ensures forall i :: Followed(Task(migration.identity, migration.generation, migration.source), states, commands, answers, i)
    ensures forall i :: 0 <= i < |answers| ==> (answers[i].usable ==> i == |answers| - 1)
    ensures |answers| < |commands| ==> answers != [] && answers[|answers| - 1].usable
    ensures answers != [] && answers[|answers| - 1].usable && migration.disk.dest.live == Reserved ==>
              Complete(migration.Self(), migration.source, migration.disk)
    ensures forall i :: 0 <= i < |answers| - 1 && commands[i].Check? && answers[i].ok && commands[i + 1].OpenStore? ==>
              (answers[i].ready <==> answers[i + 1].usable)
  {
    hide Complete, SafeDisk, Performed;
    ghost var task := Task(migration.identity, migration.generation, migration.source);
    answers, states := [], [migration.View()];
    var usable := false;
    while |answers| < |commands| && !usable
      invariant |answers| <= |commands| && migration.Safe() && migration.source == task.source
      invariant |states| == |answers| + 1 && states[0] == old(migration.View()) && states[|answers|] == migration.View()
      invariant forall i :: Followed(task, states, commands, answers, i)
      invariant forall i :: 0 <= i < |answers| ==> (answers[i].usable <==> usable && i == |answers| - 1)
      invariant usable ==> answers != []
      invariant usable && migration.disk.dest.live == Reserved ==>
                  Complete(migration.Self(), migration.source, migration.disk)
    {
      DiskIsValid(migration);
      var answer := Perform(migration, commands[|answers|], choose(|answers|, migration.disk));
      ghost var before := (states, answers);
      usable, answers, states := answer.usable, answers + [answer], states + [migration.View()];
      forall i: nat
        ensures Followed(task, states, commands, answers, i)
      {
        assert Followed(task, before.0, commands, before.1, i);
      }
    }
    forall i | 0 <= i < |answers| - 1 && commands[i].Check? && answers[i].ok && commands[i + 1].OpenStore?
      ensures answers[i].ready <==> answers[i + 1].usable
    {
      assert Followed(task, states, commands, answers, i) && Followed(task, states, commands, answers, i + 1);
      ReadyCheckOpens(task, states[i], commands[i], answers[i], states[i + 1], answers[i + 1], states[i + 2]);
    }
  }

  /** What a check says can be relied on: after one that succeeds the destination opens
      as a store if and only if the check reported it ready. */
  lemma ReadyCheckOpens(task: Task, before: State, check: Command, answer: Answer, between: State, opening: Answer, after: State)
    requires before.vault.Ideal() && between.vault.Ideal() && after.vault.Ideal()
    requires (check.Check? || check.Finalize? || check.Execute?) && Performed(task, before, check, answer, between) && answer.ok
    requires Performed(task, between, OpenStore, opening, after)
    ensures answer.ready <==> opening.usable
  {
    hide Standing, Complete, PrintOf, Storable;
  }

  /** A standing run is one whose receipt is for this very request, for this source and
      its text, dated by the anchor, and for all that is there. */
  lemma StandingMeans(owner: Owner, source: Source, disk: Disk, request: Request)
    requires owner.vault.Ideal() && Standing(owner, source, disk, request)
    ensures source.text.Some? && |source.text.value| <= 0x1C00_0000 && source.fingerprint == request.source
    ensures disk.target.image.profile.live.Some? && disk.target.mtime.live == request.anchor && !disk.target.stray
    ensures FolderResult(owner.vault, owner.identity, {owner.generation}, disk.target.image.folder) == Plain(source.text.value)
    ensures var f, receipt := disk.target.image.folder, disk.receipt.live.value;
            && receipt.request == request && receipt.complete && f.current.live == Some(receipt.target.checkpoint)
            && receipt.target.mtime == disk.target.mtime.live
            && f.At(receipt.target.checkpoint).live.Some? && f.At(receipt.target.checkpoint).live.value in f.snapshots
            && receipt.target.files == f.snapshots[f.At(receipt.target.checkpoint).live.value].files
            && forall name :: name != receipt.target.checkpoint ==> f.At(name).live.None?
  {
  }

  /** An undisturbed execution and the checks after it: where it succeeds a check of the
      same request succeeds and reports the target ready, a check of any other request is
      refused, and the destination opens with the source's text. */
  method ExecuteThenCheck(migration: Migration, request: Request, other: Request, key: nat, keyDrawn: bool, input: PS.Input)
    returns (ok: bool, checked: bool, ready: bool, fooled: bool)
    requires migration.Safe() && !migration.crashed && PS.ValidInput(input) && other != request
    requires migration.source.text.Some? ==> input.payload == migration.source.text.value
    modifies migration
    ensures ok ==> checked && ready && !fooled && migration.source.text.Some? && Renewed(migration.source, migration.disk.target)
    ensures ok ==> migration.vault.Ideal() && migration.disk.dest.live == Reserved && migration.disk.marker.live.None? &&
                   TargetResult(migration.Self(), migration.disk.target) == Plain(migration.source.text.value)
  {
    hide Complete, PrintOf, SafeDisk, Inventory, Yields;
    checked, fooled := false, false;
    ok, ready := migration.Execute(request, key, keyDrawn, input);
    if ok {
      CompleteStands(migration, request);
      migration.plan := [];
      fooled, ready := migration.Verify(other, false);
      migration.plan := [];
      checked, ready := migration.Verify(request, false);
      StandingMeans(migration.Self(), migration.source, migration.disk, request);
    }
  }

  lemma CompleteStands(migration: Migration, request: Request)
    requires migration.vault.Ideal() && Complete(migration.Self(), migration.source, migration.disk)
    requires migration.disk.dest.live == Reserved && migration.disk.marker.live == None
    requires request.source == migration.source.fingerprint && RequestOf(migration.disk) == Some(request)
    ensures Standing(migration.Self(), migration.source, migration.disk, request)
    ensures forall other :: Standing(migration.Self(), migration.source, migration.disk, other) ==> other == request
  {
  }

  lemma DiskIsValid(migration: Migration)
    requires migration.Safe()
    ensures var disk := migration.disk;
            disk.dest.Valid() && disk.marker.Valid() && disk.receipt.Valid() && ValidTarget(disk.target)
  {
  }

  /** The command at `i` has led from one state to the next. */
  ghost predicate Followed(task: Task, states: seq<State>, commands: seq<Command>, answers: seq<Answer>, i: nat) {
    i < |answers| ==>
      && |answers| <= |commands| && i + 1 < |states| && states[i].vault.Ideal() && states[i + 1].vault.Ideal()
      && Performed(task, states[i], commands[i], answers[i], states[i + 1])
  }
}

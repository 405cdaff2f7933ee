/** The encrypted Profile store: Create, Checkpoint and Load, with a crash or an
    error possible at every system call. */
module ProfileStore {
  import opened Basics
  import opened Aead
  import opened Payload
  import opened ProfileDisk
  import PC = PayloadCipher

  datatype Failure = StoreClosed | ProfileExists | ProfileMissing | MigrationRequired
                   | Unreadable | KeyMissing | Io

  datatype Verdict = Success | Error(reason: Failure)

  /** What one operation reads from outside: the payload reader, the random nonce
      prefix, the random checkpoint identifiers, and the payload file's writer. */
  datatype Input = Input(payload: Bytes, broken: bool, prefix: Option<Bytes>, ids: seq<nat>, writes: seq<(nat, bool)>)

  ghost predicate ValidInput(input: Input) {
    input.prefix.Some? ==> |input.prefix.value| == PREFIX_SIZE
  }

  /** One Profile of the store. After a crash no system call has any effect, so
      the code that follows one changes nothing. */
  class Store {
    const identity: Identity
    const generation: nat
    /** A profile of the former contract exists for this identity. */
    const legacy: bool
    /** Failed migrations keep their output. */
    const retainFailed: bool

    var vault: Vault
    /** The Profile's entry in the profiles directory, by directory number. */
    var profile: Cell<Option<nat>>
    /** The directory the entry names, when there is one. */
    var folder: Folder
    /** Directories that earlier entries named. */
    var retired: map<nat, Folder>
    var nextFolder: nat
    var plan: seq<Outcome>
    var crashed: bool
    var closed: bool

    constructor (identity: Identity, generation: nat, legacy: bool, retainFailed: bool, vault: Vault, plan: seq<Outcome>)
      requires vault.Ideal()
      ensures this.identity == identity && this.generation == generation && this.vault == vault
      ensures this.legacy == legacy && this.retainFailed == retainFailed && this.plan == plan
      ensures profile == Cell(None, {None}) && !crashed && !closed && Safe({})
    {
      this.identity, this.generation, this.legacy, this.retainFailed := identity, generation, legacy, retainFailed;
      this.vault, this.plan := vault, plan;
      profile, folder, retired, nextFolder := Cell(None, {None}), EMPTY_FOLDER, map[], 0;
      crashed, closed := false, false;
    }

    function Self(): Owner
      reads this
    {
      Owner(vault, identity, generation)
    }

    /** Everything a crash could leave of this Profile is safe, with `texts` the
        plaintexts it could hold. */
    ghost predicate Safe(texts: set<Bytes>)
      reads this
    {
      && vault.Ideal() && profile.Valid()
      && Sound(Self(), folder, texts)
      && RetiredSafe(Self(), profile, retired, nextFolder, texts)
    }

    /** The live pointer names a complete, durable checkpoint of `text`. */
    ghost predicate Current(text: Bytes)
      reads this
    {
      profile.live.Some? && folder.checkpoints.live && folder.current.live.Some? &&
      Durable(Self(), folder, folder.current.live.value, {text})
    }

    function Result(roots: set<nat>): Loaded
      requires vault.Ideal()
      reads this
    {
      if profile.live.None? then (if legacy then NeedsMigration else NotFound) else FolderResult(vault, identity, roots, folder)
    }

    /** Nothing goes wrong from here on. */
    ghost predicate Quiet()
      reads this
    {
      plan == [] && !crashed
    }

    /** The payload can be read and encrypted. */
    ghost predicate Encryptable(input: Input) {
      && input.prefix.Some? && !input.broken && input.writes == []
      && Message(input.prefix.value, identity, input.payload).Fits()
    }

    /** One of the first eight identifiers drawn is not in use. */
    ghost predicate Available(ids: seq<nat>)
      reads this
    {
      exists attempt :: 0 <= attempt < 8 && attempt < |ids| && folder.At(Id(ids[attempt])).live == None
    }

    /** No checkpoint is left but the current one. */
    ghost predicate Pruned()
      reads this
    {
      forall name :: Some(name) != folder.current.live ==> folder.At(name).after == {None}
    }

    // ---------- System calls ----------

    method Next() returns (outcome: Outcome)
      modifies `plan, `crashed
      ensures (outcome, plan, crashed) == NextCall(old(plan), old(crashed))
    {
      var call := NextCall(plan, crashed);
      outcome, plan, crashed := call.0, call.1, call.2;
    }

    /** A system call that turns the directory into `target`. When the machine
        stops, whatever the call had begun may survive. */
    method Try(target: Folder) returns (ok: bool)
      modifies `plan, `crashed, `folder
      ensures ok ==> !crashed && folder == target
      ensures !ok ==> folder == old(folder) || (crashed && folder == target)
      ensures old(plan) == [] && !old(crashed) ==> ok && plan == []
    {
      var outcome := Next();
      ok := outcome == Done;
      if outcome != Failed {
        folder := target;
      }
    }

    /** A synchronisation: only its success makes anything durable. */
    method TrySync(target: Folder) returns (ok: bool)
      modifies `plan, `crashed, `folder
      ensures ok ==> !crashed && folder == target
      ensures !ok ==> folder == old(folder)
      ensures old(plan) == [] && !old(crashed) ==> ok && plan == []
    {
      var outcome := Next();
      ok := outcome == Done;
      if ok {
        folder := target;
      }
    }

    method TryRemove(name: Name)
      modifies `plan, `crashed, `folder
      ensures folder == Remove(old(folder), name) || folder == Gut(old(folder), name) || folder == old(folder)
      ensures old(plan) == [] && !old(crashed) ==> folder == Remove(old(folder), name) && plan == [] && !crashed
    {
      if crashed {
        return;
      }
      var outcome := Next();
      folder := if outcome == Failed then Gut(folder, name) else Remove(folder, name);
    }

    // ---------- Committing a snapshot ----------

    /** Encrypts the payload; on an error only part of the file is there. */
    method EncryptPayload(metadata: Metadata, input: Input) returns (file: Bytes, ok: bool)
      requires vault.Ideal() && ValidInput(input) && metadata.identity == identity && metadata.generation == generation
      modifies `vault
      ensures vault.Ideal() && vault.Extends(old(vault))
      ensures ok ==> Holds(Self(), Files(Some(metadata), Some(file)), input.payload)
      ensures Encryptable(input) ==> ok
    {
      var cipher := new PC.PayloadCipher(vault.ciphers(metadata.key), identity, V2, vault.Produced(metadata.key));
      var sink := new PC.Sink(input.writes);
      var source := new PC.Source(input.payload, input.broken);
      var error, run := cipher.Encrypt(sink, source, input.prefix);
      vault := vault.(produced := vault.produced[metadata.key := cipher.produced]);
      file, ok := sink.contents, error.None?;
      if ok {
        assert [] + Encoded(cipher.cipher, run.value.message) == Encoded(cipher.cipher, run.value.message);
        assert WroteIt(vault, identity, Files(Some(metadata), Some(file)), run.value);
      }
    }

    method NewCheckpointId(ids: seq<nat>) returns (id: Option<Name>)
      ensures id.Some? ==> id.value.Id? && folder.At(id.value).live == None
      ensures id.Some? <==> Available(ids)
    {
      var attempt := 0;
      while attempt < 8 && attempt < |ids|
        invariant forall i :: 0 <= i < attempt && i < |ids| ==> folder.At(Id(ids[i])).live != None
      {
        if folder.At(Id(ids[attempt])).live == None {
          return Some(Id(ids[attempt]));
        }
        attempt := attempt + 1;
      }
      return None;
    }

    /** The deferred cleanup of an uncommitted snapshot. */
    method Discard(name: Name, ghost texts: set<Bytes>)
      requires vault.Ideal() && Sound(Self(), folder, texts) && Some(name) !in folder.current.after
      modifies `plan, `crashed, `folder
      ensures Sound(Self(), folder, texts) && (old(Firm(folder)) ==> Firm(folder))
      ensures folder.current == old(folder.current) && folder.checkpoints == old(folder.checkpoints)
      ensures old(Quiet()) ==> Quiet() && (retainFailed || folder.At(name).live.None?)
    {
      RemoveKeeps(Self(), folder, texts, name);
      if !retainFailed {
        TryRemove(name);
      }
    }

    /** Writes metadata and payload into a pending directory and syncs it. */
    method FillPending(i: nat, pending: Name, metadata: Metadata, input: Input, ghost texts: set<Bytes>) returns (ok: bool)
      requires vault.Ideal() && ValidInput(input) && metadata.identity == identity && metadata.generation == generation
      requires Sound(Self(), folder, texts) && Writing(folder, i, pending) && !folder.snapshots[i].solid
      modifies `vault, `plan, `crashed, `folder
      ensures vault.Ideal() && vault.Extends(old(vault)) && Sound(Self(), folder, texts)
      ensures old(Firm(folder)) ==> Firm(folder)
      ensures folder.current == old(folder.current) && folder.checkpoints == old(folder.checkpoints)
      ensures Writing(folder, i, pending)
      ensures ok ==> folder.snapshots[i].solid && Holds(Self(), folder.snapshots[i].files, input.payload)
      ensures folder.entries == old(folder.entries)
      ensures old(Quiet()) && Encryptable(input) ==> ok && Quiet()
      ensures old(Quiet()) ==> Quiet()
    {
      WriteFilesKeeps(Self(), folder, texts, i, pending, Files(Some(metadata), None));
      ok := Try(WriteFiles(folder, i, Files(Some(metadata), None)));
      if !ok {
        return;
      }
      var file, encrypted := EncryptPayload(metadata, input);
      VaultGrows(old(Self()), vault, folder, texts);
      WriteFilesKeeps(Self(), folder, texts, i, pending, Files(Some(metadata), Some(file)));
      ok := Try(WriteFiles(folder, i, Files(Some(metadata), Some(file))));
      if !ok || !encrypted {
        return false;
      }
      SyncSnapshotKeeps(Self(), folder, texts, i, pending);
      ok := TrySync(SyncSnapshot(folder, i));
    }

    /** Moves the synced pending directory to its identifier and syncs the move. */
    method Publish(i: nat, pending: Name, id: Name, ghost texts: set<Bytes>, ghost text: Bytes) returns (ok: bool)
      requires vault.Ideal() && Sound(Self(), folder, texts) && Writing(folder, i, pending) && folder.snapshots[i].solid
      requires pending.Pending? && id.Id? && folder.At(id).live == None
      requires Holds(Self(), folder.snapshots[i].files, text)
      modifies `plan, `crashed, `folder
      ensures Sound(Self(), folder, texts) && (old(Firm(folder)) ==> Firm(folder))
      ensures folder.current == old(folder.current) && folder.checkpoints == old(folder.checkpoints)
      ensures Some(id) !in folder.current.after
      ensures ok ==> Durable(Self(), folder, id, {text})
      ensures old(Quiet()) ==> ok && Quiet()
    {
      assert Some(id) in folder.current.after ==> Durable(Self(), folder, id, texts);
      RenameKeeps(Self(), folder, texts, i, pending, id);
      ok := Try(Rename(folder, pending, id));
      if !ok {
        Discard(pending, texts);
        return;
      }
      SyncCheckpointsKeeps(Self(), folder, texts, i, pending, id, text);
      ok := TrySync(SyncCheckpoints(folder));
      if !ok {
        Discard(id, texts);
      }
    }

    /** Atomically replaces the current pointer: rename, then sync. */
    method PublishPointer(id: Name, ghost texts: set<Bytes>, ghost text: Bytes) returns (published: bool, ok: bool)
      requires vault.Ideal() && Sound(Self(), folder, texts) && Durable(Self(), folder, id, {text})
      requires folder.checkpoints.live && Some(id) !in folder.current.after
      modifies `plan, `crashed, `folder
      ensures Sound(Self(), folder, texts + {text}) && (old(Firm(folder)) ==> Firm(folder))
      ensures folder.checkpoints.live
      ensures folder.current == old(folder.current) ==> Sound(Self(), folder, texts)
      ensures !published && !crashed ==> !ok && folder.current == old(folder.current)
      ensures published ==> folder.current.live == Some(id) != old(folder.current.live) && Durable(Self(), folder, id, {text})
      ensures ok ==> published && Sound(Self(), folder, {text}) && Firm(folder) && folder.current.after == {Some(id)}
      ensures old(Quiet()) ==> ok && Quiet()
    {
      RenamePointerKeeps(Self(), folder, texts, id, text);
      WiderTexts(Self(), folder, texts, texts + {text});
      published := Try(RenamePointer(folder, id));
      if !published {
        if !crashed {
          Discard(id, texts);
          WiderTexts(Self(), folder, texts, texts + {text});
        }
        return false, false;
      }
      SyncFolderKeeps(Self(), folder, texts + {text}, id, text);
      ok := TrySync(SyncFolder(folder));
      WiderTexts(Self(), folder, {text}, texts + {text});
    }

    method PrepareSnapshot(metadata: Metadata, input: Input, ghost texts: set<Bytes>) returns (id: Option<Name>)
      requires vault.Ideal() && ValidInput(input) && metadata.identity == identity && metadata.generation == generation
      requires Sound(Self(), folder, texts) && folder.checkpoints.live
      modifies `vault, `plan, `crashed, `folder
      ensures vault.Ideal() && vault.Extends(old(vault))
      ensures Sound(Self(), folder, texts) && (old(Firm(folder)) ==> Firm(folder))
      ensures folder.current == old(folder.current) && folder.checkpoints == old(folder.checkpoints)
      ensures id.Some? ==> Some(id.value) !in folder.current.after && Durable(Self(), folder, id.value, {input.payload})
      ensures old(Quiet() && Available(input.ids)) && Encryptable(input) ==> id.Some? && Quiet()
      ensures old(Quiet()) ==> Quiet()
      ensures old(Quiet()) && id.None? && !retainFailed ==> folder.At(Pending(old(folder).next)).live.None?
    {
      var i, pending := folder.next, Pending(folder.next);
      MakePendingKeeps(Self(), folder, texts);
      var ok := Try(MakePending(folder));
      if !ok {
        return None;
      }
      ok := FillPending(i, pending, metadata, input, texts);
      if ok {
        id := NewCheckpointId(input.ids);
      }
      if !ok || id.None? {
        assert Some(pending) in folder.current.after ==> Durable(Self(), folder, pending, texts);
        Discard(pending, texts);
        return None;
      }
      ok := Publish(i, pending, id.value, texts, input.payload);
      return if ok then id else None;
    }

    method RemoveEntry(name: Name, current: Name, ghost text: Bytes)
      requires vault.Ideal() && Sound(Self(), folder, {text}) && Firm(folder) && folder.current.after == {Some(current)}
      requires name != current
      modifies `plan, `crashed, `folder
      ensures Sound(Self(), folder, {text}) && Firm(folder)
      ensures folder.current == old(folder.current) && folder.checkpoints == old(folder.checkpoints)
      ensures old(plan) == [] && !old(crashed) ==>
                && plan == [] && !crashed && folder.At(name).live == None
                && forall other :: other != name ==> folder.At(other) == old(folder).At(other)
    {
      if folder.At(name).live.Some? {
        RemoveKeeps(Self(), folder, {text}, name);
        TryRemove(name);
      }
    }

    /** Removes every other checkpoint and pending directory, in any order. */
    method RemoveOldCheckpoints(current: Name, ghost text: Bytes)
      requires vault.Ideal() && Sound(Self(), folder, {text}) && Firm(folder) && folder.current.after == {Some(current)}
      modifies `plan, `crashed, `folder
      ensures Sound(Self(), folder, {text}) && Firm(folder)
      ensures folder.current == old(folder.current) && folder.checkpoints == old(folder.checkpoints)
      ensures old(Quiet()) ==> Quiet() && forall name :: name != current ==> folder.At(name).after == {None}
    {
      var names := folder.entries.Keys - {current};
      ghost var quiet := plan == [] && !crashed;
      while names != {}
        invariant current !in names && Sound(Self(), folder, {text}) && Firm(folder)
        invariant folder.current == old(folder.current) && folder.checkpoints == old(folder.checkpoints)
        invariant quiet ==> plan == [] && !crashed
        invariant quiet ==> forall name :: name != current && name !in names ==> folder.At(name).live == None
        decreases names
      {
        var name :| name in names;
        RemoveEntry(name, current, text);
        names := names - {name};
      }
      SyncEntriesKeeps(Self(), folder, {text});
      var _ := TrySync(SyncCheckpoints(folder));
    }

    /** Writes, publishes and prunes. Only a published pointer commits. */
    method CommitSnapshot(metadata: Metadata, input: Input, ghost texts: set<Bytes>) returns (committed: bool, ok: bool)
      requires vault.Ideal() && ValidInput(input) && metadata.identity == identity && metadata.generation == generation
      requires Sound(Self(), folder, texts)
      modifies `vault, `plan, `crashed, `folder
      ensures vault.Ideal() && vault.Extends(old(vault))
      ensures Sound(Self(), folder, texts + {input.payload}) && (old(Firm(folder)) ==> Firm(folder))
      ensures folder.current == old(folder.current) ==> Sound(Self(), folder, texts)
      ensures !committed && !crashed ==> !ok && folder.current == old(folder.current)
      ensures committed ==> folder.checkpoints.live && folder.current.live.Some? &&
                            Durable(Self(), folder, folder.current.live.value, {input.payload})
      ensures committed ==> folder.current.live != old(folder.current.live)
      ensures ok ==> committed && Firm(folder) && Sound(Self(), folder, {input.payload})
      ensures old(Quiet() && Available(input.ids)) && Encryptable(input) ==> ok && Quiet() && Pruned()
      ensures old(Quiet()) ==> Quiet() && (committed ==> ok)
    {
      var ready := true;
      WiderTexts(Self(), folder, texts, texts + {input.payload});
      if !folder.checkpoints.live {
        MakeCheckpointsKeeps(Self(), folder, texts);
        ready := Try(MakeCheckpoints(folder));
        WiderTexts(Self(), folder, texts, texts + {input.payload});
        if !ready {
          return false, false;
        }
      }
      var id := PrepareSnapshot(metadata, input, texts);
      if id.None? {
        WiderTexts(Self(), folder, texts, texts + {input.payload});
        return false, false;
      }
      committed, ok := PublishPointer(id.value, texts, input.payload);
      if ok {
        RemoveOldCheckpoints(id.value, input.payload);
        WiderTexts(Self(), folder, {input.payload}, texts + {input.payload});
        assert Durable(Self(), folder, id.value, {input.payload});
      }
    }

    // ---------- The store's operations ----------

    /** Moves the whole Profile out of the profiles directory. */
    method Quarantine(ghost texts: set<Bytes>) returns (ok: bool)
      requires Safe(texts) && profile.live.Some?
      modifies `plan, `crashed, `profile, `folder, `retired
      ensures Safe(texts)
      ensures ok ==> profile == Cell(None, {None}) && !crashed
      ensures old(Quiet()) ==> ok
      ensures profile.live.Some? ==> profile == old(profile) && folder == old(folder) && retired == old(retired)
      ensures profile.live.None? ==>
                folder == EMPTY_FOLDER && MovedAway(old(profile), old(folder), old(retired), profile, retired)
      ensures !old(crashed) ==> (profile.live.None? <==> old(plan) == [] || old(plan)[0] != Failed)
    {
      var outcome := Next();
      if outcome == Failed {
        return false;
      }
      retired := retired[profile.live.value := folder];
      profile := profile.Set(None);
      EmptyFolderIsSound(Self(), texts);
      folder := EMPTY_FOLDER;
      if outcome == Crash {
        return false;
      }
      outcome := Next();
      ok := outcome == Done;
      if ok {
        profile := profile.Synced();
      }
    }

    /** The reads that opening takes; the directory is looked at first. */
    function Reads(roots: set<nat>, passes: nat): nat
      requires vault.Ideal()
      reads this
    {
      1 + if profile.live.None? then 0 else FolderReads(vault, identity, roots, folder, passes)
    }

    /** One read of those that are left. */
    method Read(ghost left: nat) returns (ok: bool)
      requires !crashed && left > 0
      modifies `plan, `crashed
      ensures ok ==> !crashed && ReadAll(old(plan), left) == ReadAll(plan, left - 1)
      ensures !ok ==> ReadAll(old(plan), left) == (if crashed then Crash else Failed, plan)
    {
      var outcome := Next();
      ok := outcome == Done;
    }

    /** Reads the pointer, the metadata and the payload, and decrypts it. Any read
        that fails counts as corruption. */
    method Open(roots: set<nat>, passes: nat) returns (loaded: Loaded)
      requires vault.Ideal() && !crashed && passes > 0
      modifies `plan, `crashed
      ensures var (outcome, rest) := ReadAll(old(plan), Reads(roots, passes));
              && plan == rest && crashed == (outcome == Crash)
              && loaded == if outcome == Done then Result(roots) else Corrupt
      ensures loaded == NotFound ==> profile.live.None? && !legacy
      ensures loaded == NeedsMigration ==> profile.live.None? && legacy
    {
      ghost var n := Reads(roots, passes);
      var ok := Read(n);
      if !ok || profile.live.None? {
        return if ok then (if legacy then NeedsMigration else NotFound) else Corrupt;
      }
      ok := Read(n - 1);
      if !ok || folder.current.live.None? {
        return Corrupt;
      }
      ok := Read(n - 2);
      var entry := if folder.checkpoints.live then folder.At(folder.current.live.value).live else None;
      if !ok || entry.None? || entry.value !in folder.snapshots {
        return Corrupt;
      }
      loaded := OpenSnapshot(folder.snapshots[entry.value].files, roots, passes);
    }

    /** The metadata has been read. */
    method OpenSnapshot(files: Files, roots: set<nat>, passes: nat) returns (loaded: Loaded)
      requires vault.Ideal() && !crashed && passes > 0
      modifies `plan, `crashed
      ensures var (outcome, rest) := ReadAll(old(plan), FileReads(vault, identity, roots, files, passes) - 1);
              && plan == rest && crashed == (outcome == Crash)
              && loaded == if outcome == Done then OpenFiles(vault, identity, roots, files) else Corrupt
    {
      ghost var n := FileReads(vault, identity, roots, files, passes) - 1;
      if files.metadata.None? || files.metadata.value.generation !in roots || files.metadata.value.identity != identity {
        return OpenFiles(vault, identity, roots, files);
      }
      var ok := Read(n);
      if !ok || files.payload.None? {
        return Corrupt;
      }
      var pass := 0;
      while pass < passes
        invariant 0 <= pass <= passes && !crashed && n - 1 - pass >= 0
        invariant ReadAll(plan, n - 1 - pass) == ReadAll(old(plan), n)
        invariant pass > 0 ==> OpenFiles(vault, identity, roots, files).Plain?
      {
        ok := Read(n - 1 - pass);
        if !ok || !OpenFiles(vault, identity, roots, files).Plain? {
          return Corrupt;
        }
        pass := pass + 1;
      }
      loaded := OpenFiles(vault, identity, roots, files);
    }

    /** Opens the Profile and decrypts it so many times. A corrupt Profile is moved
        away, and so is an intact one exactly if a read fails and the move does not. */
    method OpenOrQuarantine(roots: set<nat>, passes: nat, ghost texts: set<Bytes>) returns (loaded: Loaded)
      requires Safe(texts) && !crashed && passes > 0
      modifies `plan, `crashed, `profile, `folder, `retired
      ensures Safe(texts)
      ensures loaded == if ReadAll(old(plan), old(Reads(roots, passes))).0 == Done then old(Result(roots)) else Corrupt
      ensures loaded == NotFound <==> old(profile.live).None? && !legacy && ReadAll(old(plan), 1).0 == Done
      ensures loaded == NeedsMigration <==> old(profile.live).None? && legacy && ReadAll(old(plan), 1).0 == Done
      ensures profile.live == old(profile.live) ==> Disk() == old(Disk())
      ensures profile.live != old(profile.live) ==>
                && profile.live.None? && folder == EMPTY_FOLDER
                && MovedAway(old(profile), old(folder), old(retired), profile, retired)
      ensures loaded != Corrupt ==> Disk() == old(Disk()) && !crashed && (old(plan) == [] ==> plan == [])
      ensures old(Result(roots)).Plain? ==> (profile.live.None? <==> FailsThenGoesOn(old(plan), old(Reads(roots, passes))))
      ensures loaded == Corrupt && old(Quiet() && profile.live.Some?) ==> profile == Cell(None, {None})
    {
      FailingReads(plan, Reads(roots, passes));
      loaded := Open(roots, passes);
      if loaded == Corrupt && !crashed && profile.live.Some? {
        var _ := Quarantine(texts);
      }
    }

    /** Authenticates the Profile, then decrypts it once more for the caller. */
    method Load(roots: set<nat>, ghost texts: set<Bytes>) returns (loaded: Loaded)
      requires Safe(texts) && !crashed && !closed
      modifies `plan, `crashed, `profile, `folder, `retired
      ensures Safe(texts)
      ensures loaded == if ReadAll(old(plan), old(Reads(roots, 2))).0 == Done then old(Result(roots)) else Corrupt
      ensures loaded == NotFound <==> old(profile.live).None? && !legacy && ReadAll(old(plan), 1).0 == Done
      ensures loaded == NeedsMigration <==> old(profile.live).None? && legacy && ReadAll(old(plan), 1).0 == Done
      ensures profile.live == old(profile.live) ==> Disk() == old(Disk())
      ensures profile.live != old(profile.live) ==>
                && profile.live.None? && folder == EMPTY_FOLDER
                && MovedAway(old(profile), old(folder), old(retired), profile, retired)
      ensures loaded != Corrupt ==> Disk() == old(Disk()) && !crashed && (old(plan) == [] ==> plan == [])
      ensures old(Result(roots)).Plain? ==> (profile.live.None? <==> FailsThenGoesOn(old(plan), old(Reads(roots, 2))))
      ensures loaded == Corrupt && old(Quiet() && profile.live.Some?) ==> profile == Cell(None, {None})
    {
      loaded := OpenOrQuarantine(roots, 2, texts);
    }

    /** The metadata of the checkpoint that has just been opened. */
    method OpenedMetadata(roots: set<nat>, ghost texts: set<Bytes>) returns (metadata: Metadata)
      requires vault.Ideal() && Sound(Self(), folder, texts) && FolderResult(vault, identity, roots, folder).Plain?
      ensures metadata.identity == identity && metadata.generation == generation
    {
      var name := folder.current.live.value;
      assert Durable(Self(), folder, name, texts);
      return folder.snapshots[folder.At(name).live.value].files.metadata.value;
    }

    /** Replaces the Profile's text. A crash or an error leaves the old texts
        possible, and the new one too once its pointer may have been written. But a
        read that fails while the old text is authenticated can lose the Profile. */
    method Checkpoint(roots: set<nat>, input: Input, ghost texts: set<Bytes>) returns (verdict: Verdict)
      requires Safe(texts) && !crashed && ValidInput(input) && generation in roots
      modifies `vault, `plan, `crashed, `profile, `folder, `retired
      ensures vault.Extends(old(vault)) && Safe(texts + {input.payload})
      ensures verdict == Success ==>
                && Current(input.payload) && Firm(folder) && Sound(Self(), folder, {input.payload})
                && profile == old(profile)
      ensures verdict == Error(StoreClosed) <==> closed
      ensures verdict == Error(ProfileMissing) <==> !closed && old(profile.live).None? && !legacy && ReadAll(old(plan), 1).0 == Done
      ensures verdict == Error(MigrationRequired) <==> !closed && old(profile.live).None? && legacy && ReadAll(old(plan), 1).0 == Done
      ensures folder.current == old(folder.current) || verdict == Error(Unreadable) ==> Safe(texts)
      ensures verdict == Error(Io) && !crashed && folder.current != old(folder.current) ==> Current(input.payload)
      ensures profile.live == old(profile.live) ==>
                profile == old(profile) && retired == old(retired) && (old(Firm(folder)) ==> Firm(folder))
      ensures profile.live != old(profile.live) ==>
                && verdict == Error(Unreadable) && profile.live.None? && folder == EMPTY_FOLDER
                && MovedAway(old(profile), old(folder), old(retired), profile, retired)
      ensures !old(Result(roots)).Plain? ==> verdict.Error? && Safe(texts)
      ensures old(profile.live).None? ==> Disk() == old(Disk())
      ensures old(Result(roots)).Plain? && !old(closed) ==>
                (profile.live.None? <==> FailsThenGoesOn(old(plan), old(Reads(roots, 1))))
      ensures old(Quiet() && Available(input.ids) && !closed && Result(roots).Plain?) && Encryptable(input) ==>
                verdict == Success && Quiet() && Pruned()
    {
      hide FolderReads, MovedAway, FailsThenGoesOn, Durable;
      Grow(texts, texts + {input.payload});
      if closed {
        return Error(StoreClosed);
      }
      LiveOpens(Self(), roots, folder, texts);
      var loaded := OpenOrQuarantine(roots, 1, texts);
      Grow(texts, texts + {input.payload});
      if !loaded.Plain? {
        return Error(match loaded case Corrupt => Unreadable case NeedsMigration => MigrationRequired case _ => ProfileMissing);
      }
      var metadata := OpenedMetadata(roots, texts);
      var committed, ok := Recommit(metadata, input, texts);
      return if ok then Success else Error(Io);
    }

    /** CommitSnapshot seen from the whole store. */
    method Recommit(metadata: Metadata, input: Input, ghost texts: set<Bytes>) returns (committed: bool, ok: bool)
      requires Safe(texts) && ValidInput(input) && metadata.identity == identity && metadata.generation == generation
      modifies `vault, `plan, `crashed, `folder
      ensures vault.Extends(old(vault)) && Safe(texts + {input.payload}) && (old(Firm(folder)) ==> Firm(folder))
      ensures folder.current == old(folder.current) ==> Safe(texts)
      ensures !committed && !crashed ==> !ok && folder.current == old(folder.current)
      ensures committed && profile.live.Some? ==> Current(input.payload)
      ensures committed ==> folder.current.live != old(folder.current.live)
      ensures ok ==> committed && Firm(folder) && Sound(Self(), folder, {input.payload})
      ensures old(Quiet() && Available(input.ids)) && Encryptable(input) ==> ok && Quiet() && Pruned()
      ensures old(Quiet()) ==> Quiet() && (committed ==> ok)
    {
      committed, ok := CommitSnapshot(metadata, input, texts);
      RetiredGrow(old(Self()), vault, profile, retired, nextFolder, texts, texts + {input.payload});
      RetiredGrow(old(Self()), vault, profile, retired, nextFolder, texts, texts);
    }

    lemma Grow(texts: set<Bytes>, more: set<Bytes>)
      requires Safe(texts) && texts <= more
      ensures Safe(more)
    {
      RetiredGrow(Self(), vault, profile, retired, nextFolder, texts, more);
      WiderTexts(Self(), folder, texts, more);
    }

    /** Makes the Profile's directory, empty. */
    method MakeProfile(ghost texts: set<Bytes>) returns (ok: bool)
      requires Safe(texts) && profile.live.None?
      modifies `plan, `crashed, `profile, `folder, `nextFolder
      ensures Safe(texts) && None in profile.after
      ensures ok ==> !crashed && profile.live.Some? && folder == EMPTY_FOLDER
      ensures ok ==> profile.after == old(profile.after) + {profile.live}
      ensures !ok ==> (profile.live.None? && folder == old(folder)) || (crashed && folder == EMPTY_FOLDER)
      ensures old(Quiet()) ==> ok && Quiet()
    {
      var outcome := Next();
      ok := outcome == Done;
      if outcome != Failed {
        EmptyFolderIsSound(Self(), texts);
        profile, folder, nextFolder := profile.Set(Some(nextFolder)), EMPTY_FOLDER, nextFolder + 1;
      }
    }

    /** Makes the Profile's directory and its first checkpoint. */
    method Create(key: nat, keyDrawn: bool, input: Input, ghost texts: set<Bytes>) returns (verdict: Verdict)
      requires Safe(texts) && !crashed && ValidInput(input)
      modifies `vault, `plan, `crashed, `profile, `folder, `retired, `nextFolder
      ensures vault.Extends(old(vault)) && Safe(texts + {input.payload})
      ensures verdict == Error(StoreClosed) <==> closed
      ensures verdict == Error(ProfileExists) <==> !closed && old(profile.live).Some?
      ensures verdict == Error(MigrationRequired) <==> !closed && old(profile.live).None? && legacy
      ensures closed || legacy ==> Disk() == old(Disk())
      ensures old(profile.live).Some? ==> verdict.Error? && profile == old(profile) && folder == old(folder)
      ensures verdict == Success ==>
                && Current(input.payload) && Firm(folder) && Sound(Self(), folder, {input.payload})
                && None in profile.after
      ensures verdict == Success ==> profile.after == old(profile.after) + {profile.live}
      ensures old(profile.live).None? && folder.current == EMPTY_FOLDER.current ==> Safe(texts)
      ensures verdict.Error? && !crashed && !Current(input.payload) ==> Safe(texts)
      ensures old(profile.live).None? && !crashed && profile.live.Some? && folder.current.live.Some? ==> Current(input.payload)
      ensures old(Quiet() && !closed && !legacy && profile.live.None?) && keyDrawn && input.ids != [] && Encryptable(input) ==>
                verdict == Success && Quiet() && Pruned()
      ensures old(Quiet() && profile.live.None?) && verdict.Error? ==> Quiet() && (retainFailed || profile.live.None?)
    {
      Grow(texts, texts + {input.payload});
      if closed {
        return Error(StoreClosed);
      }
      if profile.live.Some? {
        return Error(ProfileExists);
      }
      if legacy {
        return Error(MigrationRequired);
      }
      var made := MakeProfile(texts);
      Grow(texts, texts + {input.payload});
      if !made {
        return Error(Io);
      }
      assert input.ids != [] ==> folder.At(Id(input.ids[0])).live == None && Available(input.ids);
      var committed, ok := false, false;
      if keyDrawn {
        committed, ok := Recommit(Metadata(identity, generation, key), input, texts);
      }
      if !committed && !crashed {
        RemoveProfile(texts);
        Grow(texts, texts + {input.payload});
      }
      return if ok then Success else Error(Io);
    }

    /** The cleanup of a Create that did not commit. */
    method RemoveProfile(ghost texts: set<Bytes>)
      requires Safe(texts) && profile.live.Some?
      modifies `plan, `crashed, `profile, `folder, `retired
      ensures Safe(texts)
      ensures profile.live.Some? ==> folder == old(folder) && profile == old(profile)
      ensures old(Quiet()) ==> Quiet() && (retainFailed || profile.live.None?)
    {
      if retainFailed {
        return;
      }
      var outcome := Next();
      if outcome == Failed {
        return;
      }
      EmptyFolderIsSound(Self(), texts);
      retired := retired[profile.live.value := folder];
      profile := profile.Set(None);
      folder := EMPTY_FOLDER;
    }

    function Disk(): Image
      reads this
    {
      Image(profile, folder, retired, nextFolder)
    }

    /** The next start of the process, on whatever survived. */
    method Restart(survivor: Image, plan: seq<Outcome>, ghost texts: set<Bytes>)
      requires Safe(texts) && Survives(Disk(), survivor)
      modifies `plan, `crashed, `profile, `folder, `retired, `nextFolder
      ensures Safe(texts) && !crashed && Disk() == survivor && this.plan == plan
    {
      SurvivorIsSafe(Self(), Disk(), survivor, texts);
      profile, folder, retired, nextFolder := survivor.profile, survivor.folder, survivor.retired, survivor.next;
      this.plan, crashed := plan, false;
    }
  }

  /** A directory that has been moved away, but may be found again after a crash. */
  ghost predicate MovedAway(before: Cell<Option<nat>>, folder: Folder, retired: map<nat, Folder>,
                          after: Cell<Option<nat>>, later: map<nat, Folder>)
  {
    && before.live.Some? && later == retired[before.live.value := folder]
    && after.live.None? && after.after <= before.after + {None}
  }

  /** The disk of one Profile. */
  datatype Image = Image(profile: Cell<Option<nat>>, folder: Folder, retired: map<nat, Folder>, next: nat)

  ghost predicate ImageSafe(owner: Owner, image: Image, texts: set<Bytes>) {
    && image.profile.Valid() && Sound(owner, image.folder, texts)
    && RetiredSafe(owner, image.profile, image.retired, image.next, texts)
  }

  /** `after` may be found on the disk once the machine has stopped at `before`. */
  ghost predicate Survives(before: Image, after: Image) {
    && (exists v :: v in before.profile.after && after.profile == Cell(v, {v}))
    && after.next == before.next
    && match after.profile.live
       case None => after.folder == EMPTY_FOLDER
       case Some(k) =>
         if after.profile.live == before.profile.live then FolderSurvives(before.folder, after.folder)
         else k in before.retired && FolderSurvives(before.retired[k], after.folder)
  }

  lemma SurvivorIsSafe(owner: Owner, before: Image, after: Image, texts: set<Bytes>)
    requires owner.vault.Ideal() && ImageSafe(owner, before, texts) && Survives(before, after)
    ensures ImageSafe(owner, after, texts)
  {
    EmptyFolderIsSound(owner, texts);
    if after.profile.live.Some? {
      var k := after.profile.live.value;
      SurvivorOpens(owner, {owner.generation},
        if after.profile.live == before.profile.live then before.folder else before.retired[k], texts, after.folder);
    }
  }

  /** What the next Load finds after a crash at any point: one of the texts, or no
      Profile exactly when the entry of its directory was lost, or something
      corrupt, which only a Profile that never completed a commit can be. */
  lemma LoadAfterCrash(owner: Owner, before: Image, after: Image, texts: set<Bytes>, roots: set<nat>)
    requires owner.vault.Ideal() && ImageSafe(owner, before, texts) && Survives(before, after)
    requires owner.generation in roots && before.profile.live.Some?
    requires forall v :: v in before.profile.after ==> v == None || v == before.profile.live
    ensures after.profile.live.Some? ==>
              match FolderResult(owner.vault, owner.identity, roots, after.folder)
              case Plain(text) => text in texts
              case Corrupt => !Firm(before.folder)
              case _ => false
    ensures after.profile.live.None? ==> None in before.profile.after
    ensures after.profile.live.Some? && Firm(before.folder) ==> Firm(after.folder)
  {
    if after.profile.live.Some? {
      SurvivorOpens(owner, roots, before.folder, texts, after.folder);
    }
  }

  /** Whatever survives of any history, interrupted creations included, opens as one
      of the whole texts or counts as corrupt, and then it is quarantined. With no
      text committed yet it never opens as data. */
  lemma NothingElseLoads(owner: Owner, before: Image, after: Image, texts: set<Bytes>, roots: set<nat>)
    requires owner.vault.Ideal() && ImageSafe(owner, before, texts) && Survives(before, after)
    requires owner.generation in roots && after.profile.live.Some?
    ensures match FolderResult(owner.vault, owner.identity, roots, after.folder)
            case Plain(text) => text in texts
            case Corrupt => after.folder.current.live.None? || !after.folder.checkpoints.live
            case _ => false
    ensures texts == {} ==> FolderResult(owner.vault, owner.identity, roots, after.folder) == Corrupt
  {
    SurvivorIsSafe(owner, before, after, texts);
    LiveOpens(owner, roots, after.folder, texts);
  }

  /** A crash that undoes the last entry finds an earlier directory, which must be
      safe too. */
  ghost predicate RetiredSafe(owner: Owner, profile: Cell<Option<nat>>, retired: map<nat, Folder>, next: nat, texts: set<Bytes>) {
    && (forall k :: Some(k) in profile.after ==> k < next)
    && forall k :: Some(k) in profile.after && Some(k) != profile.live ==> k in retired && Sound(owner, retired[k], texts)
  }

  lemma RetiredGrow(owner: Owner, later: Vault, profile: Cell<Option<nat>>, retired: map<nat, Folder>, next: nat,
                    texts: set<Bytes>, more: set<Bytes>)
    requires RetiredSafe(owner, profile, retired, next, texts) && later.Extends(owner.vault) && texts <= more
    ensures RetiredSafe(owner.(vault := later), profile, retired, next, more)
  {
    forall k | Some(k) in profile.after && Some(k) != profile.live
      ensures Sound(owner.(vault := later), retired[k], more)
    {
      VaultGrows(owner, later, retired[k], texts);
      WiderTexts(owner.(vault := later), retired[k], texts, more);
    }
  }

  lemma WiderTexts(owner: Owner, f: Folder, texts: set<Bytes>, more: set<Bytes>)
    requires texts <= more
    ensures Sound(owner, f, texts) ==> Sound(owner, f, more)
  {
    if Sound(owner, f, texts) {
      forall n | Some(n) in f.current.after
        ensures Durable(owner, f, n, more)
      {
        assert Durable(owner, f, n, texts);
      }
    }
  }

  lemma EmptyFolderIsSound(owner: Owner, texts: set<Bytes>)
    ensures Sound(owner, EMPTY_FOLDER, texts)
  {
  }
}

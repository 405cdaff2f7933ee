/** What the Profile store's file operations do to a disk that may lose power.
    A directory entry that has not been synced may survive a crash in its old or
    its new state, and an unsynced file may survive with any content. */
module ProfileDisk {
  import opened Basics
  import opened Aead
  import opened Payload

  // ---------- Keys ----------

  /** The metadata file of a checkpoint: authenticating it under the root key of
      its generation yields the data key. */
  datatype Metadata = Metadata(identity: Identity, generation: nat, key: nat)

  /** The data keys: the cipher of each, and everything sealed under it. */
  datatype Vault = Vault(ciphers: nat -> Cipher, produced: map<nat, set<Sealing>>)
  {
    ghost predicate Ideal() { forall key: nat :: ciphers(key).Ideal() }

    function Produced(key: nat): set<Sealing> {
      if key in produced then produced[key] else {}
    }

    ghost predicate Extends(old_: Vault) {
      ciphers == old_.ciphers && forall key: nat :: old_.Produced(key) <= Produced(key)
    }
  }

  // ---------- System calls ----------

  /** What a system call does: it succeeds, it fails without effect (a removal may
      get part of the way), or the machine stops during it. */
  datatype Outcome = Done | Failed | Crash

  /** The outcome of the next call, what is left of the plan, and whether the
      machine has stopped. Once it has, nothing succeeds; a plan that has run out
      means no more trouble. */
  function NextCall(plan: seq<Outcome>, crashed: bool): (Outcome, seq<Outcome>, bool) {
    if crashed then (Failed, plan, true)
    else if plan == [] then (Done, [], false)
    else (plan[0], plan[1..], plan[0] == Crash)
  }

  /** How `n` reads in a row turn out, and the plan for what comes after them. */
  function ReadAll(plan: seq<Outcome>, n: nat): (Outcome, seq<Outcome>) {
    if n == 0 || plan == [] then (Done, plan)
    else if plan[0] != Done then (plan[0], plan[1..])
    else ReadAll(plan[1..], n - 1)
  }

  /** One of the first `n` calls fails after successes, and the call after it does not. */
  ghost predicate FailsThenGoesOn(plan: seq<Outcome>, n: nat) {
    exists k :: FailsAt(plan, n, k)
  }

  predicate FailsAt(plan: seq<Outcome>, n: nat, k: nat) {
    && k < n && k < |plan| && plan[k] == Failed && (forall i :: 0 <= i < k ==> plan[i] == Done)
    && (k + 1 < |plan| ==> plan[k + 1] != Failed)
  }

  lemma {:induction false} FailingReads(plan: seq<Outcome>, n: nat)
    ensures var (outcome, rest) := ReadAll(plan, n);
            FailsThenGoesOn(plan, n) <==> outcome == Failed && (rest != [] ==> rest[0] != Failed)
  {
    if n > 0 && plan != [] {
      if plan[0] == Done {
        FailingReads(plan[1..], n - 1);
        if FailsThenGoesOn(plan, n) {
          var k: nat :| FailsAt(plan, n, k);
          assert FailsAt(plan[1..], n - 1, k - 1);
        }
        if FailsThenGoesOn(plan[1..], n - 1) {
          var k: nat :| FailsAt(plan[1..], n - 1, k);
          assert forall i :: 0 < i < k + 1 ==> plan[i] == plan[1..][i - 1];
          assert FailsAt(plan, n, k + 1);
        }
      } else if plan[0] == Failed && (|plan| > 1 ==> plan[1] != Failed) {
        assert FailsAt(plan, n, 0);
      }
    }
  }

  // ---------- One Profile directory ----------

  /** A value on disk: what the running system sees, and what a crash may leave. */
  datatype Cell<T(==)> = Cell(live: T, after: set<T>)
  {
    ghost predicate Valid() { live in after }

    function Set(value: T): Cell<T> { Cell(value, after + {value}) }

    function Synced(): Cell<T> { Cell(live, {live}) }
  }

  datatype Name = Id(n: nat) | Pending(n: nat)

  datatype Files = Files(metadata: Option<Metadata>, payload: Option<Bytes>)

  /** A checkpoint directory; `solid` once it and its files have been synced. */
  datatype Snapshot = Snapshot(files: Files, solid: bool)

  /** The directory of one Profile: whether it holds a checkpoints directory, the
      checkpoint its current pointer names, the entries of the checkpoints
      directory and the snapshots they refer to. */
  datatype Folder = Folder(
    checkpoints: Cell<bool>,
    current: Cell<Option<Name>>,
    entries: map<Name, Cell<Option<nat>>>,
    snapshots: map<nat, Snapshot>,
    next: nat)
  {
    function At(name: Name): Cell<Option<nat>> {
      if name in entries then entries[name] else Cell(None, {None})
    }

    ghost predicate Valid() {
      && checkpoints.Valid() && current.Valid()
      && (forall name :: At(name).Valid())
      && (forall name, i :: Some(i) in At(name).after ==> i in snapshots)
      && (forall i :: i in snapshots ==> i < next)
    }
  }

  const EMPTY_FOLDER := Folder(Cell(false, {false}), Cell(None, {None}), map[], map[], 0)

  // ---------- The effect of each system call ----------

  function MakeCheckpoints(f: Folder): Folder {
    f.(checkpoints := f.checkpoints.Set(true))
  }

  function MakePending(f: Folder): Folder {
    var name := Pending(f.next);
    f.(entries := f.entries[name := f.At(name).Set(Some(f.next))],
       snapshots := f.snapshots[f.next := Snapshot(Files(None, None), false)],
       next := f.next + 1)
  }

  function WriteFiles(f: Folder, i: nat, files: Files): Folder {
    f.(snapshots := f.snapshots[i := Snapshot(files, false)])
  }

  function SyncSnapshot(f: Folder, i: nat): Folder
    requires i in f.snapshots
  {
    f.(snapshots := f.snapshots[i := f.snapshots[i].(solid := true)])
  }

  function Rename(f: Folder, from: Name, to: Name): Folder {
    var moved := f.At(from).live;
    f.(entries := f.entries[to := f.At(to).Set(moved)][from := f.At(from).Set(None)])
  }

  function SyncCheckpoints(f: Folder): Folder {
    f.(entries := map name | name in f.entries :: f.entries[name].Synced())
  }

  function RenamePointer(f: Folder, name: Name): Folder {
    f.(current := f.current.Set(Some(name)))
  }

  function SyncFolder(f: Folder): Folder {
    f.(current := f.current.Synced(), checkpoints := f.checkpoints.Synced())
  }

  /** A recursive removal under way: the snapshot's files are no longer reliable. */
  function Gut(f: Folder, name: Name): Folder {
    match f.At(name).live
    case None => f
    case Some(i) => f.(snapshots := f.snapshots[i := Snapshot(Files(None, None), false)])
  }

  function Remove(f: Folder, name: Name): Folder {
    var g := Gut(f, name);
    g.(entries := g.entries[name := g.At(name).Set(None)])
  }

  // ---------- Crashes and loading ----------

  /** `g` is a state in which the directory may be found after a crash. */
  ghost predicate FolderSurvives(f: Folder, g: Folder) {
    && g.checkpoints.live in f.checkpoints.after && g.checkpoints == g.checkpoints.Synced()
    && g.current.live in f.current.after && g.current == g.current.Synced()
    && (forall name :: g.At(name).live in f.At(name).after && g.At(name) == g.At(name).Synced())
    && g.snapshots.Keys == f.snapshots.Keys && g.next == f.next
    && (forall i :: i in f.snapshots ==> g.snapshots[i].solid)
    && (forall i :: i in f.snapshots && f.snapshots[i].solid ==> g.snapshots[i].files == f.snapshots[i].files)
  }

  datatype Loaded = NotFound | NeedsMigration | Corrupt | KeyUnavailable | Plain(text: Bytes)

  function OpenFiles(vault: Vault, identity: Identity, roots: set<nat>, files: Files): Loaded
    requires vault.Ideal()
  {
    if files.metadata.None? then Corrupt
    else
      var m := files.metadata.value;
      if m.generation !in roots then KeyUnavailable
      else if m.identity != identity || files.payload.None? then Corrupt
      else
        match Decode(Reader(vault.ciphers(m.key), vault.Produced(m.key), identity, V2), files.payload.value)
        case Accepted(text) => Plain(text)
        case Rejected(_) => Corrupt
  }

  /** The reads that opening the checkpoint takes, up to the one that settles the
      result: its metadata, its payload, and each pass that decrypts the payload. */
  function FileReads(vault: Vault, identity: Identity, roots: set<nat>, files: Files, passes: nat): nat
    requires vault.Ideal()
  {
    if files.metadata.None? || files.metadata.value.generation !in roots || files.metadata.value.identity != identity then 1
    else if files.payload.None? then 2
    else if OpenFiles(vault, identity, roots, files).Plain? then 2 + passes else 3
  }

  /** The pointer is read before. */
  function FolderReads(vault: Vault, identity: Identity, roots: set<nat>, f: Folder, passes: nat): nat
    requires vault.Ideal()
  {
    match f.current.live
    case None => 1
    case Some(name) =>
      var entry := if f.checkpoints.live then f.At(name).live else None;
      if entry.None? || entry.value !in f.snapshots then 2
      else 1 + FileReads(vault, identity, roots, f.snapshots[entry.value].files, passes)
  }

  /** What opening the Profile in this directory finds, pointer first. */
  function FolderResult(vault: Vault, identity: Identity, roots: set<nat>, f: Folder): Loaded
    requires vault.Ideal()
  {
    match f.current.live
    case None => Corrupt
    case Some(name) =>
      var entry := if f.checkpoints.live then f.At(name).live else None;
      if entry.None? || entry.value !in f.snapshots then Corrupt
      else OpenFiles(vault, identity, roots, f.snapshots[entry.value].files)
  }

  // ---------- What makes a pointer safe ----------

  /** Whose Profile it is, the root key generation it is stored under, and the keys. */
  datatype Owner = Owner(vault: Vault, identity: Identity, generation: nat)

  /** The files are a whole checkpoint of `text`: what one completed run of the
      encryptor under the key named by the metadata produced. */
  ghost predicate Holds(owner: Owner, files: Files, text: Bytes) {
    && files.metadata.Some?
    && files.metadata.value.identity == owner.identity && files.metadata.value.generation == owner.generation
    && exists run: Run :: WroteIt(owner.vault, owner.identity, files, run) && run.message.payload == text
  }

  ghost predicate WroteIt(vault: Vault, identity: Identity, files: Files, run: Run)
    requires files.metadata.Some?
  {
    var key := files.metadata.value.key;
    && run.Valid() && run.Complete() && run.message.identity == identity
    && run.Sealed() <= vault.Produced(key)
    && files.payload == Some(Encoded(vault.ciphers(key), run.message))
  }

  lemma HeldOpens(owner: Owner, roots: set<nat>, files: Files, text: Bytes)
    requires owner.vault.Ideal() && Holds(owner, files, text)
    ensures OpenFiles(owner.vault, owner.identity, roots, files) == if owner.generation in roots then Plain(text) else KeyUnavailable
  {
    var run :| WroteIt(owner.vault, owner.identity, files, run) && run.message.payload == text;
    var key := files.metadata.value.key;
    CompleteDecodes(Reader(owner.vault.ciphers(key), owner.vault.Produced(key), owner.identity, V2), run);
  }

  lemma HeldStays(owner: Owner, later: Vault, files: Files, text: Bytes)
    requires Holds(owner, files, text) && later.Extends(owner.vault)
    ensures Holds(owner.(vault := later), files, text)
  {
    var run :| WroteIt(owner.vault, owner.identity, files, run) && run.message.payload == text;
    assert owner.vault.Produced(files.metadata.value.key) <= later.Produced(files.metadata.value.key);
    assert WroteIt(later, owner.identity, files, run);
  }

  /** The checkpoint called `name` is complete and would survive any crash. */
  ghost predicate Durable(owner: Owner, f: Folder, name: Name, texts: set<Bytes>) {
    && name.Id? && f.At(name).live.Some?
    && f.At(name).after == {f.At(name).live}
    && f.At(name).live.value in f.snapshots
    && f.snapshots[f.At(name).live.value].solid
    && (forall other :: other != name ==> f.At(name).live !in f.At(other).after)
    && exists text :: text in texts &&
         Holds(owner, f.snapshots[f.At(name).live.value].files, text)
  }

  /** Every pointer that can be found, now or after a crash, names a complete and
      durable checkpoint of one of the texts. */
  ghost predicate Sound(owner: Owner, f: Folder, texts: set<Bytes>) {
    && f.Valid()
    && forall name :: Some(name) in f.current.after ==> Durable(owner, f, name, texts)
  }

  /** The pointer and the checkpoints directory are themselves durable. */
  ghost predicate Firm(f: Folder) {
    None !in f.current.after && f.checkpoints.after == {true}
  }

  lemma DurableSurvives(owner: Owner, f: Folder, texts: set<Bytes>, g: Folder, name: Name)
    requires Durable(owner, f, name, texts) && FolderSurvives(f, g)
    ensures Durable(owner, g, name, texts) && g.At(name) == f.At(name)
  {
    forall other | other != name
      ensures g.At(name).live !in g.At(other).after
    {
      assert f.At(name).live !in f.At(other).after;
    }
  }

  /** Crash safety of a Profile directory: whatever survives opens as one of the
      texts, and is corrupt only if the pointer or the directory it needs had
      never been made durable. */
  lemma SurvivorOpens(owner: Owner, roots: set<nat>, f: Folder, texts: set<Bytes>, g: Folder)
    requires owner.vault.Ideal() && Sound(owner, f, texts) && FolderSurvives(f, g)
    requires owner.generation in roots
    ensures Sound(owner, g, texts)
    ensures Firm(f) ==> Firm(g)
    ensures match FolderResult(owner.vault, owner.identity, roots, g)
            case Plain(text) => text in texts
            case Corrupt => !Firm(f)
            case _ => false
    ensures FolderResult(owner.vault, owner.identity, roots, g).Plain? <==> g.current.live.Some? && g.checkpoints.live
  {
    forall name | Some(name) in g.current.after
      ensures Durable(owner, g, name, texts)
    {
      DurableSurvives(owner, f, texts, g, name);
    }
    SurvivorIsValid(f, g);
    LiveOpens(owner, roots, g, texts);
  }

  lemma SurvivorIsValid(f: Folder, g: Folder)
    requires f.Valid() && FolderSurvives(f, g)
    ensures g.Valid() && (Firm(f) ==> Firm(g))
  {
    forall name
      ensures g.At(name).Valid() && g.At(name).after <= f.At(name).after
    {
      assert g.At(name) == g.At(name).Synced();
    }
  }

  /** The same of the running system, which sees the latest of everything. */
  lemma LiveOpens(owner: Owner, roots: set<nat>, f: Folder, texts: set<Bytes>)
    requires owner.vault.Ideal() && Sound(owner, f, texts) && owner.generation in roots
    ensures match FolderResult(owner.vault, owner.identity, roots, f)
            case Plain(text) => text in texts
            case Corrupt => f.current.live.None? || !f.checkpoints.live
            case _ => false
    ensures FolderResult(owner.vault, owner.identity, roots, f).Plain? <==> f.current.live.Some? && f.checkpoints.live
  {
    if f.current.live.Some? {
      var name := f.current.live.value;
      assert Durable(owner, f, name, texts);
      var files := f.snapshots[f.At(name).live.value].files;
      var text :| text in texts && Holds(owner, files, text);
      HeldOpens(owner, roots, files, text);
    }
  }

  // ---------- Every step keeps every pointer safe ----------

  lemma MakeCheckpointsKeeps(owner: Owner, f: Folder, texts: set<Bytes>)
    requires Sound(owner, f, texts)
    ensures Sound(owner, MakeCheckpoints(f), texts)
    ensures Firm(f) ==> Firm(MakeCheckpoints(f))
  {
    var g := MakeCheckpoints(f);
    assert forall n :: g.At(n) == f.At(n);
    forall name | Some(name) in g.current.after
      ensures Durable(owner, g, name, texts)
    {
      assert Durable(owner, f, name, texts);
    }
  }

  /** Snapshot `i` is reached only through `name` and is still being written. */
  ghost predicate Writing(f: Folder, i: nat, name: Name) {
    && i in f.snapshots && f.At(name).live == Some(i)
    && forall other :: other != name ==> Some(i) !in f.At(other).after
  }

  lemma MakePendingKeeps(owner: Owner, f: Folder, texts: set<Bytes>)
    requires Sound(owner, f, texts)
    ensures var g := MakePending(f);
            && Sound(owner, g, texts) && (Firm(f) ==> Firm(g))
            && Writing(g, f.next, Pending(f.next)) && !g.snapshots[f.next].solid
  {
    var g := MakePending(f);
    assert forall n :: n != Pending(f.next) ==> g.At(n) == f.At(n);
    forall name | Some(name) in g.current.after
      ensures Durable(owner, g, name, texts)
    {
      assert Durable(owner, f, name, texts);
    }
  }

  lemma WriteFilesKeeps(owner: Owner, f: Folder, texts: set<Bytes>, i: nat, name: Name, files: Files)
    requires Sound(owner, f, texts) && Writing(f, i, name) && !f.snapshots[i].solid
    ensures var g := WriteFiles(f, i, files);
            && Sound(owner, g, texts) && (Firm(f) ==> Firm(g))
            && Writing(g, i, name) && !g.snapshots[i].solid
  {
    var g := WriteFiles(f, i, files);
    assert forall n :: g.At(n) == f.At(n);
    forall n | Some(n) in g.current.after
      ensures Durable(owner, g, n, texts)
    {
      assert Durable(owner, f, n, texts);
    }
  }

  lemma SyncSnapshotKeeps(owner: Owner, f: Folder, texts: set<Bytes>, i: nat, name: Name)
    requires Sound(owner, f, texts) && Writing(f, i, name)
    ensures var g := SyncSnapshot(f, i);
            && Sound(owner, g, texts) && (Firm(f) ==> Firm(g))
            && Writing(g, i, name) && g.snapshots[i] == Snapshot(f.snapshots[i].files, true)
  {
    var g := SyncSnapshot(f, i);
    assert forall n :: g.At(n) == f.At(n);
    forall n | Some(n) in g.current.after
      ensures Durable(owner, g, n, texts)
    {
      assert Durable(owner, f, n, texts);
    }
  }

  /** Snapshot `i` has been moved to `id`; a crash may still find it at `from`. */
  ghost predicate Moved(f: Folder, i: nat, from: Name, id: Name) {
    && i in f.snapshots && f.snapshots[i].solid
    && f.At(id).live == Some(i) && f.At(from).live == None
    && forall other :: other != id && other != from ==> Some(i) !in f.At(other).after
  }

  lemma RenameKeeps(owner: Owner, f: Folder, texts: set<Bytes>, i: nat, from: Name, id: Name)
    requires Sound(owner, f, texts) && Writing(f, i, from) && f.snapshots[i].solid
    requires from.Pending? && id.Id? && f.At(id).live == None
    ensures var g := Rename(f, from, id);
            && Sound(owner, g, texts) && (Firm(f) ==> Firm(g))
            && Moved(g, i, from, id) && g.snapshots == f.snapshots
  {
    var g := Rename(f, from, id);
    assert forall n :: n != from && n != id ==> g.At(n) == f.At(n);
    forall n | Some(n) in g.current.after
      ensures Durable(owner, g, n, texts)
    {
      assert Durable(owner, f, n, texts);
    }
  }

  lemma SyncCheckpointsKeeps(owner: Owner, f: Folder, texts: set<Bytes>,
                             i: nat, from: Name, id: Name, text: Bytes)
    requires Sound(owner, f, texts) && Moved(f, i, from, id) && from != id && id.Id?
    requires Holds(owner, f.snapshots[i].files, text)
    ensures var g := SyncCheckpoints(f);
            && Sound(owner, g, texts) && (Firm(f) ==> Firm(g))
            && Durable(owner, g, id, {text})
  {
    var g := SyncCheckpoints(f);
    assert forall n :: g.At(n) == f.At(n).Synced();
    forall n | Some(n) in g.current.after
      ensures Durable(owner, g, n, texts)
    {
      assert Durable(owner, f, n, texts);
    }
  }

  lemma RenamePointerKeeps(owner: Owner, f: Folder, texts: set<Bytes>, id: Name, text: Bytes)
    requires Sound(owner, f, texts) && Durable(owner, f, id, {text})
    ensures var g := RenamePointer(f, id);
            && Sound(owner, g, texts + {text}) && (Firm(f) ==> Firm(g))
            && Durable(owner, g, id, {text})
  {
    var g := RenamePointer(f, id);
    assert forall n :: g.At(n) == f.At(n);
    forall n | Some(n) in g.current.after
      ensures Durable(owner, g, n, texts + {text})
    {
      if n != id {
        assert Durable(owner, f, n, texts);
      }
    }
  }

  /** Once the directory is synced the pointer is the live one for certain, and
      the texts of the other checkpoints are out of reach. */
  lemma SyncFolderKeeps(owner: Owner, f: Folder, texts: set<Bytes>, id: Name, text: Bytes)
    requires Sound(owner, f, texts) && Durable(owner, f, id, {text})
    requires f.current.live == Some(id) && f.checkpoints.live
    ensures var g := SyncFolder(f);
            && Sound(owner, g, {text}) && Firm(g)
            && g.current == Cell(Some(id), {Some(id)})
  {
    var g := SyncFolder(f);
    assert forall n :: g.At(n) == f.At(n);
    assert Durable(owner, g, id, {text});
  }

  /** A removal never touches a checkpoint that a pointer may still name. */
  lemma RemoveKeeps(owner: Owner, f: Folder, texts: set<Bytes>, name: Name)
    requires Sound(owner, f, texts) && Some(name) !in f.current.after
    ensures Sound(owner, Gut(f, name), texts) && Sound(owner, Remove(f, name), texts)
    ensures Firm(f) ==> Firm(Gut(f, name)) && Firm(Remove(f, name))
    ensures forall n :: n != name ==> Remove(f, name).At(n) == f.At(n)
  {
    var g, h := Gut(f, name), Remove(f, name);
    assert forall n :: g.At(n) == f.At(n);
    assert forall n :: n != name ==> h.At(n) == f.At(n);
    forall n | Some(n) in f.current.after
      ensures Durable(owner, g, n, texts) && Durable(owner, h, n, texts)
    {
      assert Durable(owner, f, n, texts);
    }
  }

  lemma SyncEntriesKeeps(owner: Owner, f: Folder, texts: set<Bytes>)
    requires Sound(owner, f, texts)
    ensures Sound(owner, SyncCheckpoints(f), texts) && (Firm(f) ==> Firm(SyncCheckpoints(f)))
    ensures forall n :: SyncCheckpoints(f).At(n) == f.At(n).Synced()
  {
    var g := SyncCheckpoints(f);
    assert forall n :: g.At(n) == f.At(n).Synced();
    forall n | Some(n) in g.current.after
      ensures Durable(owner, g, n, texts)
    {
      assert Durable(owner, f, n, texts);
    }
  }

  lemma VaultGrows(owner: Owner, later: Vault, f: Folder, texts: set<Bytes>)
    requires Sound(owner, f, texts) && later.Extends(owner.vault)
    ensures Sound(owner.(vault := later), f, texts)
  {
    forall n | Some(n) in f.current.after
      ensures Durable(owner.(vault := later), f, n, texts)
    {
      assert Durable(owner, f, n, texts);
      var files := f.snapshots[f.At(n).live.value].files;
      var text :| text in texts && Holds(owner, files, text);
      HeldStays(owner, later, files, text);
    }
  }
}

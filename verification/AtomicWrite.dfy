/** Replacing one file atomically inside a held parent directory, and bounded reading. */
module AtomicWrite {
  import opened Common
  import opened Filesystem

  datatype Failure =
    | System(errno: Errno)
    | ShortWrite
    | ChangedTemporary
    | NonRegularTarget
    | ChangedAfterWriting
    | TooLarge
    | CleanupFailed(errno: Errno, during: Failure)

  /** How many failed calls a failure comes of: the cleanup's own error hides the one it was cleaning up after. */
  function FaultsOf(failure: Failure): nat {
    match failure
    case System(errno) => Fault(errno.InputOutput?)
    case ShortWrite => 1
    case CleanupFailed(errno, during) => 1 + FaultsOf(during)
    case _ => 0
  }

  function Spent<T>(r: Result<T, Failure>): nat {
    if r.Err? then FaultsOf(r.error) else 0
  }

  function TemporaryName(name: string, token: string): string {
    "." + name + "." + token + ".tmp"
  }

  lemma TemporaryNameDiffers(name: string, token: string)
    ensures TemporaryName(name, token) != name
  {
    assert |TemporaryName(name, token)| > |name|;
  }

  /** What the target name leads to. */
  function Target(nodes: Inodes, d: Ino, name: string): Option<Ino> {
    if HasEntry(nodes, d, name) then Some(nodes[d].entries[name]) else None
  }

  /** Only the fresh inode and the temporary entry have been added. */
  ghost predicate BeforeRename(before: Inodes, s: State, d: Ino, temporary: string, unused: Ino) {
    && IsDirectory(before, d) && unused !in before
    && s.nodes.Keys == before.Keys + {unused}
    && (forall i :: i in before && i != d ==> s.nodes[i] == before[i])
    && s.nodes[unused].Regular?
    && (s.nodes[d] == before[d] || s.nodes[d] == Directory(before[d].entries[temporary := unused]))
  }

  /** The target is the fresh inode with the whole payload, durable; no other entry differs. */
  ghost predicate AfterRename(before: Inodes, s: State, d: Ino, name: string, unused: Ino, payload: seq<Byte>) {
    && IsDirectory(before, d) && unused !in before
    && s.nodes == before[unused := Regular(payload)][d := Directory(before[d].entries[name := unused])]
    && unused in s.synced
  }

  /** Old state, or old state plus a temporary, or the finished replacement. */
  ghost predicate CrashSafe(before: Inodes, s: State, d: Ino, name: string, temporary: string, payload: seq<Byte>) {
    || s.nodes == before
    || (exists unused :: BeforeRename(before, s, d, temporary, unused))
    || (exists unused :: AfterRename(before, s, d, name, unused, payload))
  }

  ghost predicate TraceSafe(before: Inodes, trace: seq<State>, from: nat, d: Ino, name: string, temporary: string,
                            payload: seq<Byte>) {
    forall k :: from <= k < |trace| ==> CrashSafe(before, trace[k], d, name, temporary, payload)
  }

  /** The entry map is the original one, or, if the cleanup failed, that map with the temporary. */
  ghost predicate Restored(before: Inodes, after: Inodes, d: Ino, temporary: string, cleaned: bool) {
    && IsDirectory(before, d) && IsDirectory(after, d)
    && (forall i :: i in before && i != d ==> i in after && after[i] == before[i])
    && (after[d] == before[d] || (!cleaned && after[d].entries - {temporary} == before[d].entries))
  }

  /** The entry is there and leads to the descriptor's inode. */
  predicate IsSameEntry(nodes: Inodes, d: Ino, name: string, descriptor: Ino) {
    HasEntry(nodes, d, name) && nodes[d].entries[name] == descriptor
  }

  /**
   `_unlink_same_directory_entry`: an entry that is absent, or leads elsewhere, is left alone;
   the same entry stays only if the cleanup's own stat or unlink failed.
   */
  method UnlinkSameEntry(disk: Disk, d: Ino, name: string, descriptor: Ino) returns (r: Result<(), Errno>)
    requires WellLinked(disk.nodes) && IsDirectory(disk.nodes, d) && descriptor in disk.nodes
        && disk.nodes[descriptor].Regular?
    modifies disk`nodes, disk`trace, disk`faults
    ensures disk.faults == old(disk.faults) + Fault(r.Err?) && (r.Err? ==> r.error.InputOutput?)
    ensures r.Ok? && IsSameEntry(old(disk.nodes), d, name, descriptor) ==>
      disk.nodes == Unlinked(old(disk.nodes), d, name)
      && disk.trace == old(disk.trace) + [State(disk.nodes, disk.synced)]
    ensures r.Err? || !IsSameEntry(old(disk.nodes), d, name, descriptor) ==>
      disk.nodes == old(disk.nodes) && disk.trace == old(disk.trace)
  {
    var observed := disk.Stat(d, name);
    if observed.Err? {
      return if observed.error == FileNotFound then Ok(()) else Err(observed.error);
    }
    r := Ok(());
    if observed.value == descriptor {
      r := disk.Unlink(d, name);
      if r == Err(FileNotFound) {
        r := Ok(());
      }
    }
  }

  /** Writing the whole payload, whatever number of bytes the system accepts at each call. */
  method WriteAll(disk: Disk, file: Ino, payload: seq<Byte>, ghost before: Inodes, ghost d: Ino, ghost name: string,
                  ghost temporary: string)
    returns (r: Result<(), Failure>)
    requires BeforeRename(before, State(disk.nodes, disk.synced), d, temporary, file) && disk.nodes[file] == Regular([])
    modifies disk
    ensures BeforeRename(before, State(disk.nodes, disk.synced), d, temporary, file)
        && disk.nodes[d] == old(disk.nodes)[d]
    ensures r.Ok? ==> disk.nodes[file] == Regular(payload)
    ensures disk.faults == old(disk.faults) + Spent(r) && (r.Err? ==> r.error in {System(InputOutput), ShortWrite})
    ensures old(disk.trace) <= disk.trace
        && TraceSafe(before, disk.trace, |old(disk.trace)|, d, name, temporary, payload)
  {
    var view := payload;
    while view != []
      invariant |view| <= |payload| && view == payload[|payload| - |view|..]
      invariant BeforeRename(before, State(disk.nodes, disk.synced), d, temporary, file)
          && disk.nodes[d] == old(disk.nodes)[d]
      invariant disk.nodes[file] == Regular(payload[..|payload| - |view|]) && disk.faults == old(disk.faults)
      invariant old(disk.trace) <= disk.trace
          && TraceSafe(before, disk.trace, |old(disk.trace)|, d, name, temporary, payload)
      decreases |view|
    {
      var written := disk.Write(file, view);
      assert BeforeRename(before, State(disk.nodes, disk.synced), d, temporary, file);
      if written.Err? {
        return Err(System(written.error));
      }
      if written.value == 0 {
        return Err(ShortWrite);
      }
      assert payload[..|payload| - |view|] + view[..written.value] == payload[..|payload| - |view| + written.value];
      view := view[written.value..];
    }
    assert payload[..|payload|] == payload;
    r := Ok(());
  }

  /** The target is absent, or a regular file. */
  predicate MayReplace(nodes: Inodes, d: Ino, name: string) {
    HasEntry(nodes, d, name) ==> nodes[d].entries[name] in nodes && nodes[nodes[d].entries[name]].Regular?
  }

  /** What may fail before the rename: a call, or the target when the payload is already complete and durable. */
  ghost predicate IsCause(failure: Failure, before: Inodes, s: State, d: Ino, name: string, payload: seq<Byte>) {
    || failure in {System(InputOutput), ShortWrite}
    || (failure == NonRegularTarget && !MayReplace(before, d, name)
        && exists file :: file in s.nodes && file !in before && s.nodes[file] == Regular(payload) && file in s.synced)
  }

  /** The checks between the durable write and the rename. */
  method CheckBeforeRename(disk: Disk, d: Ino, name: string, temporary: string, file: Ino)
      returns (r: Result<(), Failure>)
    requires IsDirectory(disk.nodes, d) && WellLinked(disk.nodes)
    modifies disk`faults
    ensures disk.faults == old(disk.faults) + Spent(r)
    ensures r.Err? && Target(disk.nodes, d, temporary) == Some(file) ==>
      r.error == System(InputOutput) || (r.error == NonRegularTarget && !MayReplace(disk.nodes, d, name))
    ensures r.Ok? ==> Target(disk.nodes, d, temporary) == Some(file)
    ensures r.Ok? && HasEntry(disk.nodes, d, name) ==> disk.nodes[disk.nodes[d].entries[name]].Regular?
  {
    var observed := disk.Stat(d, temporary);
    if observed.Err? {
      return Err(System(observed.error));
    }
    if observed.value != file {
      return Err(ChangedTemporary);
    }
    var destination := disk.Stat(d, name);
    if destination.Err? {
      return if destination.error == FileNotFound then Ok(()) else Err(System(destination.error));
    }
    assert HasEntry(disk.nodes, d, name);
    r := if disk.nodes[destination.value].Regular? then Ok(()) else Err(NonRegularTarget);
  }

  /** Writing the payload and making it durable. */
  method Fill(disk: Disk, file: Ino, payload: seq<Byte>, ghost before: Inodes, ghost d: Ino, ghost name: string,
              ghost temporary: string)
    returns (r: Result<(), Failure>)
    requires BeforeRename(before, State(disk.nodes, disk.synced), d, temporary, file) && disk.nodes[file] == Regular([])
    modifies disk
    ensures BeforeRename(before, State(disk.nodes, disk.synced), d, temporary, file)
        && disk.nodes[d] == old(disk.nodes)[d]
    ensures r.Ok? ==> disk.nodes[file] == Regular(payload) && file in disk.synced
    ensures disk.faults == old(disk.faults) + Spent(r) && (r.Err? ==> r.error in {System(InputOutput), ShortWrite})
    ensures old(disk.trace) <= disk.trace
        && TraceSafe(before, disk.trace, |old(disk.trace)|, d, name, temporary, payload)
  {
    if * {
      var errno := disk.Fail(); // fchmod
      return Err(System(errno));
    }
    r := WriteAll(disk, file, payload, before, d, name, temporary);
    if r.Err? {
      return;
    }
    var synced := disk.Sync(file);
    assert BeforeRename(before, State(disk.nodes, disk.synced), d, temporary, file);
    r := if synced.Ok? then Ok(()) else Err(System(synced.error));
  }

  /** Filling the temporary and moving it over the target. */
  method FillAndRename(disk: Disk, d: Ino, name: string, temporary: string, file: Ino, payload: seq<Byte>,
                       ghost before: Inodes)
    returns (r: Result<(), Failure>)
    requires WellLinked(before) && IsDirectory(before, d) && temporary !in before[d].entries && temporary != name
        && file !in before
    requires disk.nodes == Link(before[file := Regular([])], d, temporary, file)
    modifies disk
    ensures r.Ok? ==> AfterRename(before, State(disk.nodes, disk.synced), d, name, file, payload)
    ensures r.Ok? ==> MayReplace(before, d, name)
    ensures disk.faults == old(disk.faults) + Spent(r)
    ensures r.Err? ==> IsCause(r.error, before, State(disk.nodes, disk.synced), d, name, payload)
    ensures r.Err? ==> BeforeRename(before, State(disk.nodes, disk.synced), d, temporary, file)
    ensures r.Err? ==> disk.nodes[d].entries == before[d].entries[temporary := file]
    ensures old(disk.trace) <= disk.trace
        && TraceSafe(before, disk.trace, |old(disk.trace)|, d, name, temporary, payload)
  {
    assert BeforeRename(before, State(disk.nodes, disk.synced), d, temporary, file);
    r := Fill(disk, file, payload, before, d, name, temporary);
    if r.Err? {
      return;
    }
    LinkedDuringWrite(before, State(disk.nodes, disk.synced), d, temporary, file);
    r := CheckBeforeRename(disk, d, name, temporary, file);
    if r.Err? {
      return;
    }
    RenameCompletes(before, disk.nodes, d, name, temporary, file, payload);
    var moved := disk.Rename(d, temporary, name);
    assert moved.Ok? ==> AfterRename(before, State(disk.nodes, disk.synced), d, name, file, payload);
    r := if moved.Ok? then Ok(()) else Err(System(moved.error));
  }

  lemma LinkedDuringWrite(before: Inodes, s: State, d: Ino, temporary: string, file: Ino)
    requires WellLinked(before) && BeforeRename(before, s, d, temporary, file)
    ensures WellLinked(s.nodes)
  {
    forall e, n | HasEntry(s.nodes, e, n) ensures s.nodes[e].entries[n] in s.nodes {
      if e != d || n in before[d].entries {
        assert HasEntry(before, e, n);
      }
    }
  }

  lemma RenameCompletes(before: Inodes, nodes: Inodes, d: Ino, name: string, temporary: string, file: Ino,
                        payload: seq<Byte>)
    requires IsDirectory(before, d) && temporary !in before[d].entries && temporary != name && file !in before
    requires nodes.Keys == before.Keys + {file} && nodes[file] == Regular(payload)
    requires forall i :: i in before && i != d ==> nodes[i] == before[i]
    requires nodes[d] == Directory(before[d].entries[temporary := file])
    ensures Renamed(nodes, d, temporary, name)
        == before[file := Regular(payload)][d := Directory(before[d].entries[name := file])]
  {
    assert before[d].entries[temporary := file] - {temporary} == before[d].entries;
  }

  /** Taking the temporary away again after a failure: it is gone unless this cleanup itself failed. */
  method CleanUp(disk: Disk, d: Ino, ghost name: string, temporary: string, file: Ino, ghost payload: seq<Byte>,
                 ghost before: Inodes)
    returns (r: Result<(), Errno>)
    requires WellLinked(before) && BeforeRename(before, State(disk.nodes, disk.synced), d, temporary, file)
    requires temporary !in before[d].entries && disk.nodes[d].entries == before[d].entries[temporary := file]
    modifies disk`nodes, disk`trace, disk`faults
    ensures disk.faults == old(disk.faults) + Fault(r.Err?) && Restored(before, disk.nodes, d, temporary, r.Ok?)
    ensures r.Err? ==> disk.nodes == old(disk.nodes)
    ensures old(disk.trace) <= disk.trace
        && TraceSafe(before, disk.trace, |old(disk.trace)|, d, name, temporary, payload)
  {
    LinkedDuringWrite(before, State(disk.nodes, disk.synced), d, temporary, file);
    ghost var failed := disk.nodes;
    r := UnlinkSameEntry(disk, d, temporary, file);
    assert failed[d].entries - {temporary} == before[d].entries - {temporary} == before[d].entries;
    assert BeforeRename(before, State(disk.nodes, disk.synced), d, temporary, file);
  }

  /** Filling the temporary, and taking it away again if that fails; an error of the latter hides the former. */
  method FillOrCleanUp(disk: Disk, d: Ino, name: string, temporary: string, file: Ino, payload: seq<Byte>,
                       ghost before: Inodes)
    returns (r: Result<(), Failure>)
    requires WellLinked(before) && IsDirectory(before, d) && temporary !in before[d].entries && temporary != name
        && file !in before
    requires disk.nodes == Link(before[file := Regular([])], d, temporary, file)
    modifies disk
    ensures r.Ok? ==> AfterRename(before, State(disk.nodes, disk.synced), d, name, file, payload)
    ensures r.Ok? ==> MayReplace(before, d, name)
    ensures disk.faults == old(disk.faults) + Spent(r) && (Spent(r) == 0 && MayReplace(before, d, name) ==> r.Ok?)
    ensures r.Err? ==> Restored(before, disk.nodes, d, temporary, !r.error.CleanupFailed?)
    ensures r.Err? && r.error.CleanupFailed? ==>
      IsCause(r.error.during, before, State(disk.nodes, disk.synced), d, name, payload)
    ensures old(disk.trace) <= disk.trace
        && TraceSafe(before, disk.trace, |old(disk.trace)|, d, name, temporary, payload)
  {
    r := FillAndRename(disk, d, name, temporary, file, payload, before);
    if r.Err? {
      var unlinked := CleanUp(disk, d, name, temporary, file, payload, before);
      if unlinked.Err? {
        r := Err(CleanupFailed(unlinked.error, r.error));
      }
    }
  }

  method Replace(disk: Disk, d: Ino, name: string, token: string, payload: seq<Byte>)
    returns (r: Result<Ino, Failure>, renamed: bool, cleaned: bool)
    requires IsDirectory(disk.nodes, d) && WellLinked(disk.nodes)
    modifies disk
    ensures r.Ok? ==> renamed && AfterRename(old(disk.nodes), State(disk.nodes, disk.synced), d, name, r.value, payload)
    ensures renamed ==>
      exists unused :: AfterRename(old(disk.nodes), State(disk.nodes, disk.synced), d, name, unused, payload)
    ensures disk.faults == old(disk.faults) ==>
      (r.Ok? <==> !HasEntry(old(disk.nodes), d, TemporaryName(name, token)) && MayReplace(old(disk.nodes), d, name))
    ensures disk.faults == old(disk.faults) + Spent(r)
    ensures !cleaned <==> r.Err? && r.error.CleanupFailed?
    ensures !cleaned ==> IsCause(r.error.during, old(disk.nodes), State(disk.nodes, disk.synced), d, name, payload)
    ensures !renamed ==> r.Err? && Restored(old(disk.nodes), disk.nodes, d, TemporaryName(name, token), cleaned)
    ensures old(disk.trace) <= disk.trace
    ensures TraceSafe(old(disk.nodes), disk.trace, |old(disk.trace)|, d, name, TemporaryName(name, token), payload)
  {
    ghost var before := disk.nodes;
    var temporary := TemporaryName(name, token);
    TemporaryNameDiffers(name, token);
    renamed, cleaned := false, true;
    var created := disk.CreateExclusive(d, temporary);
    if created.Err? {
      r := Err(System(created.error));
      return;
    }
    var file := created.value;
    assert BeforeRename(before, State(disk.nodes, disk.synced), d, temporary, file);
    var filled := FillOrCleanUp(disk, d, name, temporary, file, payload, before);
    if filled.Err? {
      cleaned := !filled.error.CleanupFailed?;
      r := Err(filled.error);
      return;
    }
    renamed := true;
    var visible := disk.Stat(d, name);
    assert AfterRename(before, State(disk.nodes, disk.synced), d, name, file, payload);
    if visible.Err? {
      r := Err(System(visible.error));
    } else if visible.value != file {
      r := Err(ChangedAfterWriting);
    } else {
      r := Ok(file);
    }
  }

  /* What the crash states mean. */

  /** At every crash point the target is the old inode with its old bytes, or a fresh one with the whole payload. */
  lemma CrashShowsOldOrNew(before: Inodes, s: State, d: Ino, name: string, temporary: string, payload: seq<Byte>)
    requires IsDirectory(before, d) && WellLinked(before) && temporary != name
    requires CrashSafe(before, s, d, name, temporary, payload)
    ensures IsDirectory(s.nodes, d)
    ensures
      || (Target(s.nodes, d, name) == Target(before, d, name)
          && (HasEntry(before, d, name) && before[d].entries[name] != d
              ==> s.nodes[before[d].entries[name]] == before[before[d].entries[name]]))
      || (Target(s.nodes, d, name).Some? && Target(s.nodes, d, name).value !in before
          && s.nodes[Target(s.nodes, d, name).value] == Regular(payload))
    ensures forall other :: other != name && other != temporary ==>
      Target(s.nodes, d, other) == Target(before, d, other)
    ensures forall i :: i in before && i != d ==> i in s.nodes && s.nodes[i] == before[i]
  {
    if HasEntry(before, d, name) {
      assert before[d].entries[name] in before;
    }
  }

  /** A power loss keeps some earlier directory map and, of the files, only the bytes that were durable by then. */
  ghost predicate PowerLossImage(s: State, d: Ino, image: Inodes) {
    && IsDirectory(s.nodes, d) && d in image && image[d] == s.nodes[d]
    && (forall i :: i in s.synced && i in s.nodes ==> i in image && image[i] == s.nodes[i])
  }

  /** Even then a changed target shows the whole payload, and an unchanged one its own durable bytes. */
  lemma PowerLossShowsOldOrNew(before: Inodes, s: State, d: Ino, name: string, temporary: string, payload: seq<Byte>,
                               image: Inodes)
    requires IsDirectory(before, d) && WellLinked(before) && temporary != name
    requires CrashSafe(before, s, d, name, temporary, payload) && PowerLossImage(s, d, image)
    ensures
      || (Target(image, d, name) == Target(before, d, name)
          && (HasEntry(before, d, name) && before[d].entries[name] in s.synced && before[d].entries[name] != d
              ==> before[d].entries[name] in image
                  && image[before[d].entries[name]] == before[before[d].entries[name]]))
      || (Target(image, d, name).Some? && Target(image, d, name).value in image
          && image[Target(image, d, name).value] == Regular(payload))
  {
    CrashShowsOldOrNew(before, s, d, name, temporary, payload);
    if unused :| AfterRename(before, s, d, name, unused, payload) {
      assert unused in s.nodes && s.nodes[unused] == Regular(payload);
    }
  }

  /* Bounded reading. */

  const READ_CHUNK := 64 * 1024

  /** `_read_bounded_descriptor`: `size` is what fstat said, `content` what the reads then return, in any chunks. */
  method ReadBounded(size: nat, content: seq<Byte>, maxBytes: nat) returns (r: Result<seq<Byte>, Failure>)
    ensures r.Ok? <==> size <= maxBytes && |content| <= maxBytes
    ensures r.Ok? ==> r.value == content
  {
    if size > maxBytes {
      return Err(TooLarge);
    }
    var chunks: seq<Byte>, total := [], 0;
    while true
      invariant total == |chunks| <= maxBytes && chunks <= content
      decreases |content| - total
    {
      var limit := if READ_CHUNK < maxBytes + 1 - total then READ_CHUNK else maxBytes + 1 - total;
      var n: nat :| n <= limit && n <= |content| - total && (n == 0 ==> total == |content|);
      if n == 0 {
        break;
      }
      chunks := content[..total + n];
      total := total + n;
      if total > maxBytes {
        return Err(TooLarge);
      }
    }
    r := Ok(chunks);
  }
}

/**
 An inode graph and the descriptor-anchored system calls that the safe I/O code makes on it.
 Every call may fail for its own reason or with an I/O error, and every change is recorded in
 `trace`, so that what holds of the trace holds at every point where the process may stop.
 */
module Filesystem {
  import opened Common

  type Ino = nat

  datatype Node =
    | Directory(entries: map<string, Ino>)
    | Regular(bytes: seq<Byte>)
    | Symlink(target: string)

  type Inodes = map<Ino, Node>

  datatype Errno = FileNotFound | FileExists | NotEmpty | WrongType | InputOutput

  /** The state a crash can reveal: the inodes, and the files whose bytes are already durable. */
  datatype State = State(nodes: Inodes, synced: set<Ino>)

  predicate IsDirectory(nodes: Inodes, d: Ino) {
    d in nodes && nodes[d].Directory?
  }

  predicate HasEntry(nodes: Inodes, d: Ino, name: string) {
    IsDirectory(nodes, d) && name in nodes[d].entries
  }

  /** Every directory entry leads to an inode. */
  ghost predicate WellLinked(nodes: Inodes) {
    forall d, name :: HasEntry(nodes, d, name) ==> nodes[d].entries[name] in nodes
  }

  function Link(nodes: Inodes, d: Ino, name: string, target: Ino): Inodes
    requires IsDirectory(nodes, d)
  {
    nodes[d := Directory(nodes[d].entries[name := target])]
  }

  function Unlinked(nodes: Inodes, d: Ino, name: string): Inodes
    requires IsDirectory(nodes, d)
  {
    nodes[d := Directory(nodes[d].entries - {name})]
  }

  function Fault(failed: bool): nat {
    if failed then 1 else 0
  }

  class Disk {
    var nodes: Inodes
    ghost var synced: set<Ino>
    ghost var trace: seq<State>
    /** How many calls have failed for a reason of the system's own. */
    ghost var faults: nat

    constructor (initial: Inodes, ghost durable: set<Ino>)
      ensures nodes == initial && synced == durable && trace == [State(initial, durable)] && faults == 0
    {
      nodes, synced, trace, faults := initial, durable, [State(initial, durable)], 0;
    }

    method Fail() returns (r: Errno)
      modifies this`faults
      ensures faults == old(faults) + 1 && r == InputOutput
    {
      faults := faults + 1;
      r := InputOutput;
    }

    /** `os.stat(name, dir_fd=d, follow_symlinks=False)`. */
    method Stat(d: Ino, name: string) returns (r: Result<Ino, Errno>)
      requires IsDirectory(nodes, d)
      modifies this`faults
      ensures faults == old(faults) + Fault(r == Err(InputOutput))
      ensures r.Ok? ==> HasEntry(nodes, d, name) && r.value == nodes[d].entries[name]
      ensures r.Err? ==> r.error.InputOutput? || (r.error.FileNotFound? && name !in nodes[d].entries)
      ensures r == Err(FileNotFound) ==> name !in nodes[d].entries
    {
      if * {
        var errno := Fail();
        return Err(errno);
      }
      r := if name in nodes[d].entries then Ok(nodes[d].entries[name]) else Err(FileNotFound);
    }

    /** Opening a child directory without following a link. */
    method OpenDirectory(d: Ino, name: string) returns (r: Result<Ino, Errno>)
      requires IsDirectory(nodes, d) && WellLinked(nodes)
      modifies this`faults
      ensures faults == old(faults) + Fault(r == Err(InputOutput))
      ensures r.Ok? ==> HasEntry(nodes, d, name) && r.value == nodes[d].entries[name] && IsDirectory(nodes, r.value)
      ensures r.Err? ==>
        r.error.InputOutput? || !HasEntry(nodes, d, name) || !IsDirectory(nodes, nodes[d].entries[name])
    {
      if * {
        var errno := Fail();
        return Err(errno);
      }
      if name !in nodes[d].entries {
        return Err(FileNotFound);
      }
      assert HasEntry(nodes, d, name);
      var child := nodes[d].entries[name];
      r := if nodes[child].Directory? then Ok(child) else Err(WrongType);
    }

    /** `os.listdir`: the names in an arbitrary order. */
    method ListDirectory(d: Ino) returns (r: Result<seq<string>, Errno>)
      requires IsDirectory(nodes, d)
      modifies this`faults
      ensures faults == old(faults) + Fault(r == Err(InputOutput)) && (r.Err? ==> r.error.InputOutput?)
      ensures r.Ok? ==> forall name :: name in r.value <==> name in nodes[d].entries
      ensures r.Ok? ==> forall i, j :: 0 <= i < j < |r.value| ==> r.value[i] != r.value[j]
    {
      if * {
        var errno := Fail();
        return Err(errno);
      }
      var names: seq<string>, left := [], nodes[d].entries.Keys;
      while left != {}
        invariant forall name :: name in nodes[d].entries <==> name in left || name in names
        invariant forall name :: name in left ==> name !in names
        invariant forall i, j :: 0 <= i < j < |names| ==> names[i] != names[j]
      {
        var name :| name in left;
        names, left := names + [name], left - {name};
      }
      r := Ok(names);
    }

    method Unlink(d: Ino, name: string) returns (r: Result<(), Errno>)
      requires IsDirectory(nodes, d) && WellLinked(nodes)
      modifies this`nodes, this`trace, this`faults
      ensures faults == old(faults) + Fault(r == Err(InputOutput))
      ensures r.Err? ==> r.error.InputOutput? || !HasEntry(nodes, d, name) || IsDirectory(nodes, nodes[d].entries[name])
      ensures r.Ok? ==> old(HasEntry(nodes, d, name)) && !old(nodes[nodes[d].entries[name]].Directory?)
      ensures r.Ok? ==> nodes == Unlinked(old(nodes), d, name) && trace == old(trace) + [State(nodes, synced)]
      ensures r.Err? ==> nodes == old(nodes) && trace == old(trace)
      ensures r == Err(FileNotFound) ==> name !in nodes[d].entries
    {
      if * {
        var errno := Fail();
        return Err(errno);
      }
      if name !in nodes[d].entries {
        return Err(FileNotFound);
      }
      assert HasEntry(nodes, d, name);
      if nodes[nodes[d].entries[name]].Directory? {
        return Err(WrongType);
      }
      nodes := Unlinked(nodes, d, name);
      trace := trace + [State(nodes, synced)];
      r := Ok(());
    }

    method RemoveEmptyDirectory(d: Ino, name: string) returns (r: Result<(), Errno>)
      requires IsDirectory(nodes, d) && WellLinked(nodes)
      modifies this`nodes, this`trace, this`faults
      ensures faults == old(faults) + Fault(r == Err(InputOutput))
      ensures r.Err? ==>
        r.error.InputOutput? || !old(HasEntry(nodes, d, name)) || old(nodes[nodes[d].entries[name]]) != Directory(map[])
      ensures r.Ok? ==> old(HasEntry(nodes, d, name)) && old(nodes[nodes[d].entries[name]]) == Directory(map[])
      ensures r.Ok? ==> nodes == Unlinked(old(nodes), d, name) && trace == old(trace) + [State(nodes, synced)]
      ensures r.Err? ==> nodes == old(nodes) && trace == old(trace)
    {
      if * {
        var errno := Fail();
        return Err(errno);
      }
      if name !in nodes[d].entries {
        return Err(FileNotFound);
      }
      assert HasEntry(nodes, d, name);
      var child := nodes[d].entries[name];
      if !nodes[child].Directory? {
        return Err(WrongType);
      }
      if nodes[child].entries != map[] {
        return Err(NotEmpty);
      }
      nodes := Unlinked(nodes, d, name);
      trace := trace + [State(nodes, synced)];
      r := Ok(());
    }

    /** `os.open` with O_CREAT | O_EXCL: a new empty regular file. */
    method CreateExclusive(d: Ino, name: string) returns (r: Result<Ino, Errno>)
      requires IsDirectory(nodes, d)
      modifies this
      ensures faults == old(faults) + Fault(r == Err(InputOutput))
          && (r.Err? ==> r.error.InputOutput? || name in old(nodes)[d].entries)
      ensures r.Ok? ==> r.value !in old(nodes) && r.value !in synced && name !in old(nodes)[d].entries
      ensures r.Ok? ==> nodes == Link(old(nodes)[r.value := Regular([])], d, name, r.value)
      ensures r.Ok? ==> synced == old(synced) - {r.value} && trace == old(trace) + [State(nodes, synced)]
      ensures r.Err? ==> nodes == old(nodes) && synced == old(synced) && trace == old(trace)
    {
      if * {
        var errno := Fail();
        return Err(errno);
      }
      if name in nodes[d].entries {
        return Err(FileExists);
      }
      var unused := FreshInode(nodes);
      nodes := Link(nodes[unused := Regular([])], d, name, unused);
      synced := synced - {unused};
      trace := trace + [State(nodes, synced)];
      r := Ok(unused);
    }

    /** `os.write`: any number of leading bytes, possibly none. */
    method Write(file: Ino, data: seq<Byte>) returns (r: Result<nat, Errno>)
      requires file in nodes && nodes[file].Regular?
      modifies this
      ensures faults == old(faults) + Fault(r == Err(InputOutput) || (r == Ok(0) && data != []))
          && (r.Err? ==> r.error.InputOutput?)
      ensures r.Ok? ==> r.value <= |data|
      ensures r.Ok? ==> nodes == old(nodes)[file := Regular(old(nodes)[file].bytes + data[..r.value])]
      ensures r.Ok? ==> synced == old(synced) - {file} && trace == old(trace) + [State(nodes, synced)]
      ensures r.Err? ==> nodes == old(nodes) && synced == old(synced) && trace == old(trace)
    {
      if * {
        var errno := Fail();
        return Err(errno);
      }
      var n: nat :| n <= |data|;
      faults := faults + Fault(n == 0 && data != []);
      nodes := nodes[file := Regular(nodes[file].bytes + data[..n])];
      synced := synced - {file};
      trace := trace + [State(nodes, synced)];
      r := Ok(n);
    }

    /** `os.fsync` of a file: on success its current bytes are durable. */
    method Sync(file: Ino) returns (r: Result<(), Errno>)
      modifies this`synced, this`trace, this`faults
      ensures faults == old(faults) + Fault(r == Err(InputOutput)) && (r.Err? ==> r.error.InputOutput?)
      ensures r.Ok? ==> synced == old(synced) + {file} && trace == old(trace) + [State(nodes, synced)]
      ensures r.Err? ==> synced == old(synced) && trace == old(trace)
    {
      if * {
        var errno := Fail();
        return Err(errno);
      }
      synced := synced + {file};
      trace := trace + [State(nodes, synced)];
      r := Ok(());
    }

    /** `os.rename` inside one directory, replacing any non-directory at the new name. */
    method Rename(d: Ino, source: string, destination: string) returns (r: Result<(), Errno>)
      requires HasEntry(nodes, d, source)
      modifies this`nodes, this`trace, this`faults
      ensures faults == old(faults) + Fault(r == Err(InputOutput)) && (r.Err? ==> r.error.InputOutput?)
      ensures r.Ok? ==>
        nodes == Renamed(old(nodes), d, source, destination) && trace == old(trace) + [State(nodes, synced)]
      ensures r.Err? ==> nodes == old(nodes) && trace == old(trace)
    {
      if * {
        var errno := Fail();
        return Err(errno);
      }
      nodes := Renamed(nodes, d, source, destination);
      trace := trace + [State(nodes, synced)];
      r := Ok(());
    }
  }

  function Renamed(nodes: Inodes, d: Ino, source: string, destination: string): Inodes
    requires HasEntry(nodes, d, source)
  {
    nodes[d := Directory((nodes[d].entries - {source})[destination := nodes[d].entries[source]])]
  }

  /** An inode number that is not in use. */
  method FreshInode(nodes: Inodes) returns (unused: Ino)
    ensures unused !in nodes
  {
    unused := 0;
    var below := nodes.Keys;
    while below != {}
      invariant forall i :: i in nodes && i >= unused ==> i in below
    {
      var i :| i in below;
      below := below - {i};
      if i >= unused {
        unused := i + 1;
      }
    }
  }
}

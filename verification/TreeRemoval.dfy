/** Recursive removal of one directory tree through held descriptors. */
module TreeRemoval {
  import opened Common
  import opened Filesystem

  /** The directory that a path of names leads to; symbolic links are never followed. */
  ghost function Walk(nodes: Inodes, d: Ino, path: seq<string>): Option<Ino>
    decreases |path|
  {
    if !IsDirectory(nodes, d) then None
    else if path == [] then Some(d)
    else if path[0] !in nodes[d].entries then None
    else Walk(nodes, nodes[d].entries[path[0]], path[1..])
  }

  ghost predicate Inside(nodes: Inodes, root: Ino, d: Ino) {
    exists path :: Walk(nodes, root, path) == Some(d)
  }

  /** `height` shows that no directory is above itself. */
  ghost predicate Acyclic(nodes: Inodes, height: map<Ino, nat>) {
    && (forall d :: IsDirectory(nodes, d) ==> d in height)
    && (forall d, name :: HasEntry(nodes, d, name) && IsDirectory(nodes, nodes[d].entries[name])
          ==> height[nodes[d].entries[name]] < height[d])
  }

  /** The same inodes with no more entries: files and links untouched, directories only smaller. */
  ghost predicate Shrunk(before: Inodes, after: Inodes) {
    && before.Keys == after.Keys
    && (forall i :: i in before && !before[i].Directory? ==> after[i] == before[i])
    && (forall i :: IsDirectory(before, i) ==> IsDirectory(after, i) && SubMap(after[i].entries, before[i].entries))
  }

  ghost predicate SubMap(a: map<string, Ino>, b: map<string, Ino>) {
    forall name :: name in a ==> name in b && a[name] == b[name]
  }

  /** Nothing but directories of the subtree of `root` has changed. */
  ghost predicate OnlyInside(before: Inodes, after: Inodes, root: Ino) {
    Shrunk(before, after) && forall i :: i in before && !Inside(before, root, i) ==> after[i] == before[i]
  }

  /** The whole subtree of `root` is empty and nothing else has changed. */
  ghost predicate Emptied(before: Inodes, after: Inodes, root: Ino) {
    OnlyInside(before, after, root) && forall i :: Inside(before, root, i) ==>
      i in after && after[i] == Directory(map[])
  }

  lemma {:induction false} WalkShrunk(before: Inodes, after: Inodes, d: Ino, path: seq<string>, x: Ino)
    requires Shrunk(before, after) && Walk(after, d, path) == Some(x)
    ensures Walk(before, d, path) == Some(x)
    decreases |path|
  {
    assert IsDirectory(before, d);
    if path != [] {
      WalkShrunk(before, after, after[d].entries[path[0]], path[1..], x);
    }
  }

  lemma InsideShrunk(before: Inodes, after: Inodes, root: Ino, x: Ino)
    requires Shrunk(before, after) && Inside(after, root, x)
    ensures Inside(before, root, x)
  {
    var path :| Walk(after, root, path) == Some(x);
    WalkShrunk(before, after, root, path, x);
  }

  lemma InsideChild(nodes: Inodes, d: Ino, name: string, x: Ino)
    requires HasEntry(nodes, d, name) && Inside(nodes, nodes[d].entries[name], x)
    ensures Inside(nodes, d, x)
  {
    var path :| Walk(nodes, nodes[d].entries[name], path) == Some(x);
    assert ([name] + path)[1..] == path;
    assert Walk(nodes, d, [name] + path) == Some(x);
  }

  lemma InsideSelf(nodes: Inodes, d: Ino)
    requires IsDirectory(nodes, d)
    ensures Inside(nodes, d, d)
  {
    assert Walk(nodes, d, []) == Some(d);
  }

  /** Below a directory, heights are smaller, so a directory is not inside its child. */
  lemma {:induction false} WalkDescends(nodes: Inodes, height: map<Ino, nat>, d: Ino, path: seq<string>, x: Ino)
    requires Acyclic(nodes, height) && Walk(nodes, d, path) == Some(x)
    ensures IsDirectory(nodes, x) && IsDirectory(nodes, d) && height[x] <= height[d]
    decreases |path|
  {
    if path != [] {
      WalkDescends(nodes, height, nodes[d].entries[path[0]], path[1..], x);
      assert HasEntry(nodes, d, path[0]);
    }
  }

  lemma ShrunkFacts(before: Inodes, after: Inodes, height: map<Ino, nat>)
    requires Shrunk(before, after)
    ensures WellLinked(before) ==> WellLinked(after)
    ensures Acyclic(before, height) ==> Acyclic(after, height)
  {
    forall d, name | HasEntry(after, d, name)
      ensures HasEntry(before, d, name) && before[d].entries[name] == after[d].entries[name] {
      assert IsDirectory(before, d);
    }
    forall d | IsDirectory(after, d) ensures IsDirectory(before, d) {
    }
  }

  lemma ShrunkTransitive(a: Inodes, b: Inodes, c: Inodes)
    requires Shrunk(a, b) && Shrunk(b, c)
    ensures Shrunk(a, c)
  {
    forall i | IsDirectory(a, i) ensures IsDirectory(c, i) && SubMap(c[i].entries, a[i].entries) {
      assert IsDirectory(b, i);
    }
  }

  lemma UnlinkedInside(nodes: Inodes, d: Ino, name: string)
    requires IsDirectory(nodes, d)
    ensures OnlyInside(nodes, Unlinked(nodes, d, name), d)
  {
    InsideSelf(nodes, d);
  }

  /** Changes inside a child, made to a tree that had changed inside the parent, are changes inside the parent. */
  lemma OnlyInsideChild(before: Inodes, mid: Inodes, after: Inodes, d: Ino, name: string)
    requires OnlyInside(before, mid, d) && HasEntry(mid, d, name)
    requires OnlyInside(mid, after, mid[d].entries[name])
    ensures OnlyInside(before, after, d)
  {
    ShrunkTransitive(before, mid, after);
    assert IsDirectory(before, d);
    forall i | i in before && !Inside(before, d, i) ensures after[i] == before[i] {
      if Inside(mid, mid[d].entries[name], i) {
        InsideShrunk(before, mid, mid[d].entries[name], i);
        InsideChild(before, d, name, i);
      }
    }
  }

  lemma OnlyInsideSame(before: Inodes, mid: Inodes, after: Inodes, d: Ino)
    requires OnlyInside(before, mid, d) && OnlyInside(mid, after, d)
    ensures OnlyInside(before, after, d)
  {
    ShrunkTransitive(before, mid, after);
    forall i | i in before && !Inside(before, d, i) ensures after[i] == before[i] {
      if Inside(mid, d, i) {
        InsideShrunk(before, mid, d, i);
      }
    }
  }

  lemma {:induction false} WalkJoin(nodes: Inodes, d: Ino, p: seq<string>, q: seq<string>, x: Ino, y: Ino)
    requires Walk(nodes, d, p) == Some(x) && Walk(nodes, x, q) == Some(y)
    ensures Walk(nodes, d, p + q) == Some(y)
    decreases |p|
  {
    if p == [] {
      assert p + q == q;
    } else {
      WalkJoin(nodes, nodes[d].entries[p[0]], p[1..], q, x, y);
      assert (p + q)[1..] == p[1..] + q;
    }
  }

  lemma InsideTransitive(nodes: Inodes, a: Ino, b: Ino, c: Ino)
    requires Inside(nodes, a, b) && Inside(nodes, b, c)
    ensures Inside(nodes, a, c)
  {
    var p :| Walk(nodes, a, p) == Some(b);
    var q :| Walk(nodes, b, q) == Some(c);
    WalkJoin(nodes, a, p, q, b, c);
  }

  /** A child directory lies inside its parent, and neither the parent nor anything above lies inside it. */
  lemma ChildFacts(nodes: Inodes, height: map<Ino, nat>, d: Ino, name: string)
    requires Acyclic(nodes, height) && HasEntry(nodes, d, name) && IsDirectory(nodes, nodes[d].entries[name])
    ensures Inside(nodes, d, nodes[d].entries[name])
    ensures forall y :: Inside(nodes, nodes[d].entries[name], y) ==> y in height && height[y] < height[d]
  {
    var c := nodes[d].entries[name];
    InsideSelf(nodes, c);
    InsideChild(nodes, d, name, c);
    forall y | Inside(nodes, c, y) ensures y in height && height[y] < height[d] {
      var path :| Walk(nodes, c, path) == Some(y);
      WalkDescends(nodes, height, c, path, y);
    }
  }

  ghost predicate SubtreeEmpty(before: Inodes, now: Inodes, root: Ino) {
    forall y :: Inside(before, root, y) ==> y in now && now[y] == Directory(map[])
  }

  /** Between two steps of the loop over `d`, a directory below it is untouched or its whole subtree is empty. */
  ghost predicate Whole(before: Inodes, now: Inodes, d: Ino) {
    forall x :: Inside(before, d, x) && x != d ==>
      x in before && x in now && (now[x] == before[x] || SubtreeEmpty(before, now, x))
  }

  /** A path below `v` either still exists or ends in a directory that is already empty. */
  lemma {:induction false} PathKeptOrEmpty(before: Inodes, now: Inodes, height: map<Ino, nat>, d: Ino, v: Ino,
                                           path: seq<string>, y: Ino)
    requires Acyclic(before, height) && Shrunk(before, now) && Whole(before, now, d)
    requires Inside(before, d, v) && v in height && d in height && height[v] < height[d]
    requires Walk(before, v, path) == Some(y)
    ensures Inside(now, v, y) || (y in now && now[y] == Directory(map[]))
    decreases |path|
  {
    assert Inside(before, v, y);
    if now[v] == before[v] {
      if path == [] {
        InsideSelf(now, v);
      } else {
        var w := before[v].entries[path[0]];
        WalkDescends(before, height, w, path[1..], y);
        ChildFacts(before, height, v, path[0]);
        InsideTransitive(before, d, v, w);
        InsideSelf(before, w);
        PathKeptOrEmpty(before, now, height, d, w, path[1..], y);
        if Inside(now, w, y) {
          InsideChild(now, v, path[0], y);
        }
      }
    }
  }

  /** After a child's subtree has been emptied and unlinked, the loop over `d` stands between two steps again. */
  lemma ChildRemoved(before: Inodes, mid: Inodes, after: Inodes, height: map<Ino, nat>, d: Ino, name: string)
    requires Acyclic(before, height) && OnlyInside(before, mid, d) && Whole(before, mid, d)
    requires HasEntry(mid, d, name) && IsDirectory(mid, mid[d].entries[name])
    requires Emptied(mid, after, mid[d].entries[name]) && IsDirectory(after, d)
    ensures var now := Unlinked(after, d, name);
            OnlyInside(before, now, d) && SubtreeEmpty(before, now, mid[d].entries[name]) && Whole(before, now, d)
  {
    var c := mid[d].entries[name];
    var now := Unlinked(after, d, name);
    assert IsDirectory(before, d);
    assert HasEntry(before, d, name) && before[d].entries[name] == c;
    OnlyInsideChild(before, mid, after, d, name);
    UnlinkedInside(after, d, name);
    OnlyInsideSame(before, after, now, d);
    ChildEmpty(before, mid, after, height, d, name);
    forall x | Inside(before, d, x) && x != d
      ensures x in before && x in now && (now[x] == before[x] || SubtreeEmpty(before, now, x))
    {
      if now[x] != before[x] {
        StillWhole(before, mid, after, height, d, name, x);
      }
    }
  }

  lemma ChildEmpty(before: Inodes, mid: Inodes, after: Inodes, height: map<Ino, nat>, d: Ino, name: string)
    requires Acyclic(before, height) && Shrunk(before, mid) && Whole(before, mid, d)
    requires HasEntry(before, d, name) && IsDirectory(before, before[d].entries[name])
    requires Emptied(mid, after, before[d].entries[name]) && IsDirectory(after, d)
    ensures SubtreeEmpty(before, Unlinked(after, d, name), before[d].entries[name])
  {
    var c := before[d].entries[name];
    var now := Unlinked(after, d, name);
    ChildFacts(before, height, d, name);
    forall y | Inside(before, c, y) ensures y in now && now[y] == Directory(map[]) {
      var path :| Walk(before, c, path) == Some(y);
      PathKeptOrEmpty(before, mid, height, d, c, path, y);
      EmptyStays(mid, after, y);
    }
  }

  lemma EmptyStays(before: Inodes, after: Inodes, y: Ino)
    requires Shrunk(before, after)
    ensures y in before && before[y] == Directory(map[]) ==> y in after && after[y] == Directory(map[])
  {
    if y in before && before[y] == Directory(map[]) {
      assert IsDirectory(before, y);
      assert after[y].entries == map[];
    }
  }

  lemma StillWhole(before: Inodes, mid: Inodes, after: Inodes, height: map<Ino, nat>, d: Ino, name: string, x: Ino)
    requires Acyclic(before, height) && OnlyInside(before, mid, d) && Whole(before, mid, d)
    requires HasEntry(mid, d, name) && HasEntry(before, d, name) && before[d].entries[name] == mid[d].entries[name]
    requires OnlyInside(mid, after, mid[d].entries[name]) && IsDirectory(after, d)
    requires SubtreeEmpty(before, Unlinked(after, d, name), mid[d].entries[name])
    requires Inside(before, d, x) && x != d && x in after && after[x] != before[x]
    ensures SubtreeEmpty(before, Unlinked(after, d, name), x)
  {
    var c := mid[d].entries[name];
    var now := Unlinked(after, d, name);
    forall y | Inside(before, x, y) ensures y in now && now[y] == Directory(map[]) {
      if mid[x] != before[x] {
        assert y in mid && mid[y] == Directory(map[]);
        EmptyStays(mid, after, y);
      } else {
        InsideShrunk(before, mid, c, x);
        InsideTransitive(before, c, x, y);
      }
    }
  }

  datatype Failure = System(errno: Errno) | ChangedDuringDeletion

  /** Every state recorded since the trace had `from` entries changed nothing outside the subtree of `root`. */
  ghost predicate TraceInside(before: Inodes, trace: seq<State>, from: nat, root: Ino) {
    forall k :: from <= k < |trace| ==> OnlyInside(before, trace[k].nodes, root)
  }

  /** The loop over the listing of `d` has dealt with the first `k` names. */
  ghost predicate Progress(before: Inodes, now: Inodes, d: Ino, names: seq<string>, k: nat)
    requires k <= |names| && IsDirectory(before, d)
  {
    && OnlyInside(before, now, d) && Whole(before, now, d)
    && IsDirectory(now, d)
    && (forall name :: name in now[d].entries <==> name in names[k..])
    && (forall j :: 0 <= j < k && names[j] in before[d].entries && IsDirectory(before, before[d].entries[names[j]])
          ==> SubtreeEmpty(before, now, before[d].entries[names[j]]))
  }

  lemma ProgressStart(nodes: Inodes, d: Ino, names: seq<string>)
    requires IsDirectory(nodes, d) && forall name :: name in names <==> name in nodes[d].entries
    ensures Progress(nodes, nodes, d, names, 0)
  {
    assert names[0..] == names;
    forall x | Inside(nodes, d, x) ensures x in nodes {
      var path :| Walk(nodes, d, path) == Some(x);
      WalkEnds(nodes, d, path, x);
    }
  }

  lemma {:induction false} WalkEnds(nodes: Inodes, d: Ino, path: seq<string>, x: Ino)
    requires Walk(nodes, d, path) == Some(x)
    ensures IsDirectory(nodes, x)
    decreases |path|
  {
    if path != [] {
      WalkEnds(nodes, nodes[d].entries[path[0]], path[1..], x);
    }
  }

  lemma NamesAfter(names: seq<string>, k: nat, name: string)
    requires k < |names| && forall i, j :: 0 <= i < j < |names| ==> names[i] != names[j]
    ensures name in names[k + 1..] <==> name in names[k..] && name != names[k]
  {
    assert names[k..] == [names[k]] + names[k + 1..];
  }

  /** One more name is gone: the earlier subtrees stay empty. */
  lemma ProgressStep(before: Inodes, mid: Inodes, now: Inodes, height: map<Ino, nat>, d: Ino, names: seq<string>,
                     k: nat)
    requires k < |names| && IsDirectory(before, d) && Acyclic(before, height)
    requires forall i, j :: 0 <= i < j < |names| ==> names[i] != names[j]
    requires Progress(before, mid, d, names, k) && Shrunk(mid, now)
    requires OnlyInside(before, now, d) && Whole(before, now, d)
    requires now[d].entries.Keys == mid[d].entries.Keys - {names[k]}
    requires names[k] in before[d].entries && IsDirectory(before, before[d].entries[names[k]])
      ==> SubtreeEmpty(before, now, before[d].entries[names[k]])
    ensures Progress(before, now, d, names, k + 1)
  {
    forall name ensures name in now[d].entries <==> name in names[k + 1..] {
      NamesAfter(names, k, name);
    }
    forall j | 0 <= j < k + 1 && names[j] in before[d].entries && IsDirectory(before, before[d].entries[names[j]])
      ensures SubtreeEmpty(before, now, before[d].entries[names[j]])
    {
      if j < k {
        forall y | Inside(before, before[d].entries[names[j]], y) ensures y in now && now[y] == Directory(map[]) {
          EmptyStays(mid, now, y);
        }
      }
    }
  }

  /** When the whole listing has been dealt with, the subtree is empty. */
  lemma ProgressEnd(before: Inodes, now: Inodes, height: map<Ino, nat>, d: Ino, names: seq<string>)
    requires IsDirectory(before, d) && Progress(before, now, d, names, |names|)
    requires forall name :: name in names <==> name in before[d].entries
    ensures Emptied(before, now, d)
  {
    assert now[d].entries == map[];
    forall x | Inside(before, d, x) ensures x in now && now[x] == Directory(map[]) {
      var path :| Walk(before, d, path) == Some(x);
      if path != [] {
        var c := before[d].entries[path[0]];
        assert path[0] in names;
        var j :| 0 <= j < |names| && names[j] == path[0];
        assert Walk(before, c, path[1..]) == Some(x);
        assert Inside(before, c, x);
        assert IsDirectory(before, c);
      }
    }
  }

  /** Unlinking a file or a link keeps the loop between two steps. */
  lemma FileRemoved(before: Inodes, mid: Inodes, height: map<Ino, nat>, d: Ino, name: string)
    requires Acyclic(before, height) && OnlyInside(before, mid, d) && Whole(before, mid, d)
    requires HasEntry(mid, d, name) && !IsDirectory(mid, mid[d].entries[name])
    ensures var now := Unlinked(mid, d, name);
            OnlyInside(before, now, d) && Whole(before, now, d) && !IsDirectory(before, mid[d].entries[name])
  {
    var now := Unlinked(mid, d, name);
    UnlinkedInside(mid, d, name);
    OnlyInsideSame(before, mid, now, d);
    forall x | Inside(before, d, x) && x != d
      ensures x in before && x in now && (now[x] == before[x] || SubtreeEmpty(before, now, x))
    {
      if mid[x] != before[x] {
        forall y | Inside(before, x, y) ensures y in now && now[y] == Directory(map[]) {
          assert mid[y] == Directory(map[]);
          EmptyStays(mid, now, y);
        }
      }
    }
  }

  lemma StillListed(before: Inodes, now: Inodes, d: Ino, names: seq<string>, k: nat)
    requires k < |names| && IsDirectory(before, d) && Progress(before, now, d, names, k)
    ensures IsDirectory(now, d) && HasEntry(now, d, names[k]) && OnlyInside(before, now, d) && Whole(before, now, d)
  {
    assert names[k] in names[k..];
  }

  lemma TraceGrows(before: Inodes, soFar: seq<State>, trace: seq<State>, from: nat, root: Ino)
    requires from <= |soFar| && soFar <= trace
    requires TraceInside(before, soFar, from, root) && TraceInside(before, trace, |soFar|, root)
    ensures TraceInside(before, trace, from, root)
  {
  }

  method RemoveDirectoryContents(disk: Disk, d: Ino, ghost height: map<Ino, nat>) returns (r: Result<(), Failure>)
    requires IsDirectory(disk.nodes, d) && WellLinked(disk.nodes) && Acyclic(disk.nodes, height)
    modifies disk`nodes, disk`trace, disk`faults
    ensures OnlyInside(old(disk.nodes), disk.nodes, d)
    ensures r.Ok? ==> Emptied(old(disk.nodes), disk.nodes, d)
    ensures disk.faults >= old(disk.faults) + Fault(r.Err?)
    ensures old(disk.trace) <= disk.trace && TraceInside(old(disk.nodes), disk.trace, |old(disk.trace)|, d)
    decreases height[d], 2
  {
    ghost var before := disk.nodes;
    var listed := disk.ListDirectory(d);
    if listed.Err? {
      return Err(System(listed.error));
    }
    var names := listed.value;
    ProgressStart(before, d, names);
    for k := 0 to |names|
      invariant Progress(before, disk.nodes, d, names, k) && disk.faults >= old(disk.faults)
      invariant WellLinked(disk.nodes) && Acyclic(disk.nodes, height)
      invariant old(disk.trace) <= disk.trace && TraceInside(before, disk.trace, |old(disk.trace)|, d)
    {
      ghost var mid, soFar := disk.nodes, disk.trace;
      StillListed(before, mid, d, names, k);
      r := RemoveEntry(disk, d, names[k], height, before);
      TraceGrows(before, soFar, disk.trace, |old(disk.trace)|, d);
      if r.Err? {
        return;
      }
      ShrunkFacts(mid, disk.nodes, height);
      ProgressStep(before, mid, disk.nodes, height, d, names, k);
    }
    ProgressEnd(before, disk.nodes, height, d, names);
    r := Ok(());
  }

  /** One turn of the loop: unlink a file or link, or empty and remove a child directory. */
  method RemoveEntry(disk: Disk, d: Ino, name: string, ghost height: map<Ino, nat>, ghost before: Inodes)
      returns (r: Result<(), Failure>)
    requires IsDirectory(disk.nodes, d) && WellLinked(disk.nodes) && Acyclic(disk.nodes, height)
    requires Acyclic(before, height) && OnlyInside(before, disk.nodes, d) && Whole(before, disk.nodes, d)
    modifies disk`nodes, disk`trace, disk`faults
    ensures disk.faults >= old(disk.faults) + Fault(r.Err? && HasEntry(old(disk.nodes), d, name))
    ensures OnlyInside(before, disk.nodes, d) && Shrunk(old(disk.nodes), disk.nodes)
    ensures r.Ok? ==>
      Whole(before, disk.nodes, d) && disk.nodes[d].entries.Keys == old(disk.nodes)[d].entries.Keys - {name}
    ensures r.Ok? && name in before[d].entries && IsDirectory(before, before[d].entries[name])
      ==> SubtreeEmpty(before, disk.nodes, before[d].entries[name])
    ensures old(disk.trace) <= disk.trace && TraceInside(before, disk.trace, |old(disk.trace)|, d)
    decreases height[d], 1
  {
    ghost var mid := disk.nodes;
    assert IsDirectory(before, d);
    var observed := disk.Stat(d, name);
    if observed.Err? {
      return Err(System(observed.error));
    }
    assert HasEntry(mid, d, name);
    if !disk.nodes[observed.value].Directory? {
      FileRemoved(before, mid, height, d, name);
      UnlinkedInside(mid, d, name);
      var unlinked := disk.Unlink(d, name);
      return if unlinked.Ok? then Ok(()) else Err(System(unlinked.error));
    }
    var handle := disk.OpenDirectory(d, name);
    if handle.Err? {
      return Err(System(handle.error));
    }
    r := RemoveChild(disk, d, name, handle.value, height, before);
  }

  /** Removing the entry of an emptied directory, if it still leads to that directory. */
  method DropEmptied(disk: Disk, d: Ino, name: string, child: Ino) returns (r: Result<(), Failure>)
    requires HasEntry(disk.nodes, d, name) && disk.nodes[d].entries[name] == child
    requires child in disk.nodes && disk.nodes[child] == Directory(map[]) && WellLinked(disk.nodes)
    modifies disk`nodes, disk`trace, disk`faults
    ensures r.Ok? ==>
      disk.nodes == Unlinked(old(disk.nodes), d, name)
      && disk.trace == old(disk.trace) + [State(disk.nodes, disk.synced)]
    ensures r.Err? ==> disk.nodes == old(disk.nodes) && disk.trace == old(disk.trace)
    ensures disk.faults == old(disk.faults) + Fault(r.Err?)
  {
    var current := disk.Stat(d, name);
    if current.Err? {
      return Err(System(current.error));
    }
    if current.value != child {
      return Err(ChangedDuringDeletion);
    }
    var removed := disk.RemoveEmptyDirectory(d, name);
    r := if removed.Ok? then Ok(()) else Err(System(removed.error));
  }

  method RemoveChild(disk: Disk, d: Ino, name: string, child: Ino, ghost height: map<Ino, nat>, ghost before: Inodes)
      returns (r: Result<(), Failure>)
    requires HasEntry(disk.nodes, d, name) && child == disk.nodes[d].entries[name] && IsDirectory(disk.nodes, child)
    requires WellLinked(disk.nodes) && Acyclic(disk.nodes, height)
    requires Acyclic(before, height) && OnlyInside(before, disk.nodes, d) && Whole(before, disk.nodes, d)
    modifies disk`nodes, disk`trace, disk`faults
    ensures disk.faults >= old(disk.faults) + Fault(r.Err? && HasEntry(old(disk.nodes), d, name))
    ensures OnlyInside(before, disk.nodes, d) && Shrunk(old(disk.nodes), disk.nodes)
    ensures r.Ok? ==>
      Whole(before, disk.nodes, d) && disk.nodes[d].entries.Keys == old(disk.nodes)[d].entries.Keys - {name}
    ensures r.Ok? ==> SubtreeEmpty(before, disk.nodes, child)
    ensures old(disk.trace) <= disk.trace && TraceInside(before, disk.trace, |old(disk.trace)|, d)
    decreases height[d], 0
  {
    ghost var mid := disk.nodes;
    r := RemoveDirectoryContents(disk, child, height);
    ghost var after := disk.nodes;
    OnlyInsideChild(before, mid, after, d, name);
    forall k | |old(disk.trace)| <= k < |disk.trace| ensures OnlyInside(before, disk.trace[k].nodes, d) {
      OnlyInsideChild(before, mid, disk.trace[k].nodes, d, name);
    }
    if r.Err? {
      return;
    }
    ReadyToDrop(mid, after, height, d, name);
    ChildDropped(before, mid, after, height, d, name);
    r := DropEmptied(disk, d, name, child);
  }

  /** An emptied child is still where it was, and empty. */
  lemma ReadyToDrop(mid: Inodes, after: Inodes, height: map<Ino, nat>, d: Ino, name: string)
    requires WellLinked(mid) && Acyclic(mid, height) && HasEntry(mid, d, name) && IsDirectory(mid, mid[d].entries[name])
    requires Emptied(mid, after, mid[d].entries[name])
    ensures HasEntry(after, d, name) && after[d] == mid[d] && WellLinked(after)
    ensures mid[d].entries[name] in after && after[mid[d].entries[name]] == Directory(map[])
  {
    var child := mid[d].entries[name];
    ShrunkFacts(mid, after, height);
    ChildFacts(mid, height, d, name);
    InsideSelf(mid, child);
  }

  lemma ChildDropped(before: Inodes, mid: Inodes, after: Inodes, height: map<Ino, nat>, d: Ino, name: string)
    requires Acyclic(before, height) && OnlyInside(before, mid, d) && Whole(before, mid, d)
    requires HasEntry(mid, d, name) && IsDirectory(mid, mid[d].entries[name])
    requires Emptied(mid, after, mid[d].entries[name]) && IsDirectory(after, d) && after[d] == mid[d]
    ensures var now := Unlinked(after, d, name);
      && OnlyInside(before, now, d) && Shrunk(mid, now) && Whole(before, now, d)
      && SubtreeEmpty(before, now, mid[d].entries[name])
      && now[d].entries.Keys == mid[d].entries.Keys - {name}
  {
    ChildRemoved(before, mid, after, height, d, name);
    UnlinkedInside(after, d, name);
    ShrunkTransitive(mid, after, Unlinked(after, d, name));
  }

  function NodeAfter(before: Inodes, parent: Ino, name: string, i: Ino, inside: bool): Node
    requires IsDirectory(before, parent) && i in before
  {
    if i == parent then Directory(before[parent].entries - {name}) else if inside then Directory(map[]) else before[i]
  }

  /** A completed removal: no entry for the target, its whole subtree empty, everything else as it was. */
  ghost predicate TreeRemoved(before: Inodes, after: Inodes, parent: Ino, name: string) {
    && HasEntry(before, parent, name)
    && after.Keys == before.Keys
    && forall i :: i in before ==>
      after[i] == NodeAfter(before, parent, name, i, Inside(before, before[parent].entries[name], i))
  }

  /** A removal that has not completed: the entry is still there and only its subtree may have lost entries. */
  ghost predicate PartlyRemoved(before: Inodes, now: Inodes, parent: Ino, name: string) {
    && IsDirectory(before, parent) && parent in now && now[parent] == before[parent]
    && if name in before[parent].entries then OnlyInside(before, now, before[parent].entries[name]) else now == before
  }

  lemma RemovalCompletes(before: Inodes, after: Inodes, parent: Ino, name: string)
    requires HasEntry(before, parent, name) && Emptied(before, after, before[parent].entries[name])
    requires OnlyInside(before, after, before[parent].entries[name]) && parent in after
        && after[parent] == before[parent]
    ensures TreeRemoved(before, Unlinked(after, parent, name), parent, name)
  {
  }

  predicate LeadsToDirectory(nodes: Inodes, parent: Ino, name: string) {
    HasEntry(nodes, parent, name) && IsDirectory(nodes, nodes[parent].entries[name])
  }

  method RemoveTree(disk: Disk, parent: Ino, name: string, ghost height: map<Ino, nat>) returns (r: Result<(), Failure>)
    requires IsDirectory(disk.nodes, parent) && WellLinked(disk.nodes) && Acyclic(disk.nodes, height)
    modifies disk`nodes, disk`trace, disk`faults
    ensures r.Ok? ==> TreeRemoved(old(disk.nodes), disk.nodes, parent, name)
    ensures r.Err? ==> PartlyRemoved(old(disk.nodes), disk.nodes, parent, name)
    ensures disk.faults == old(disk.faults) ==> (r.Ok? <==> LeadsToDirectory(old(disk.nodes), parent, name))
    ensures old(disk.trace) <= disk.trace
    ensures forall k :: |old(disk.trace)| <= k < |disk.trace| ==>
      || PartlyRemoved(old(disk.nodes), disk.trace[k].nodes, parent, name)
      || TreeRemoved(old(disk.nodes), disk.trace[k].nodes, parent, name)
  {
    ghost var before := disk.nodes;
    var handle := disk.OpenDirectory(parent, name);
    if handle.Err? {
      return Err(System(handle.error));
    }
    var target := handle.value;
    ChildFacts(before, height, parent, name);
    r := RemoveDirectoryContents(disk, target, height);
    if r.Err? {
      return;
    }
    ghost var after := disk.nodes;
    ReadyToDrop(before, after, height, parent, name);
    RemovalCompletes(before, after, parent, name);
    r := DropEmptied(disk, parent, name, target);
  }
}

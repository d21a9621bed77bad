/**
 A workspace directory tree and its recursive listing: the reference that the runner's
 stack-driven scan is compared with.
 */
module WorkspaceTree {
  import opened Common
  import Text

  datatype Node =
    | Directory(children: seq<Child>)
    | File(content: seq<Byte>)
    | Special

  /** One directory entry; `utf8` says whether the name can be encoded as UTF-8. */
  datatype Child = Child(name: string, utf8: bool, node: Node)

  /** A listed entry: its relative path, and for a directory the depth it would be scanned at. */
  datatype Entry = Entry(path: string, utf8: bool, depth: nat, node: Node)

  function Base(prefix: string): string {
    if prefix == "" then "" else prefix + "/"
  }

  function ChildEntry(c: Child, prefix: string, utf8: bool, depth: nat): Entry {
    Entry(Base(prefix) + c.name, utf8 && c.utf8, depth + 1, c.node)
  }

  /** The entry of `c` followed by everything below it. */
  ghost function Subtree(c: Child, prefix: string, utf8: bool, depth: nat): seq<Entry>
    decreases c, 1
  {
    var entry := ChildEntry(c, prefix, utf8, depth);
    [entry] + if c.node.Directory? then Listing(c.node.children, entry.path, entry.utf8, depth + 1) else []
  }

  ghost function Listing(children: seq<Child>, prefix: string, utf8: bool, depth: nat): seq<Entry>
    decreases children, 0
  {
    if children == [] then []
    else Subtree(children[0], prefix, utf8, depth) + Listing(children[1..], prefix, utf8, depth)
  }

  /** What the operating system guarantees of a directory: distinct non-empty names without slashes. */
  ghost predicate WellFormed(children: seq<Child>)
    decreases children
  {
    && (forall i, j :: 0 <= i < j < |children| ==> children[i].name != children[j].name)
    && (forall c :: c in children ==> c.name != "" && '/' !in c.name)
    && (forall c :: c in children && c.node.Directory? ==> WellFormed(c.node.children))
  }

  predicate Under(base: string, name: string, path: string) {
    path == base + name || base + name + "/" <= path
  }

  lemma SameNameUnder(base: string, n1: string, n2: string, path: string)
    requires '/' !in n1 && '/' !in n2
    requires Under(base, n1, path) && Under(base, n2, path)
    ensures n1 == n2
  {
    var rest := path[|base|..];
    assert n1 <= rest && n2 <= rest by {
      assert path[..|base| + |n1|] == base + n1;
      assert path[..|base| + |n2|] == base + n2;
    }
    assert n1 == rest || rest[|n1|] == '/';
    assert n2 == rest || rest[|n2|] == '/';
    assert forall k :: 0 <= k < |n1| ==> rest[k] == n1[k] && rest[k] != '/';
    assert forall k :: 0 <= k < |n2| ==> rest[k] == n2[k] && rest[k] != '/';
  }

  lemma UnderIsBelow(base: string, name: string, path: string)
    requires Under(base, name, path)
    ensures base <= path
  {
  }

  /** Every entry below a child has a path that starts with the child's path and a slash. */
  lemma {:induction false} SubtreePaths(c: Child, prefix: string, utf8: bool, depth: nat, e: Entry)
    requires c.name != "" && (c.node.Directory? ==> WellFormed(c.node.children))
    requires e in Subtree(c, prefix, utf8, depth)
    ensures e == ChildEntry(c, prefix, utf8, depth) || Base(prefix) + c.name + "/" <= e.path
    ensures Under(Base(prefix), c.name, e.path)
    decreases c, 1
  {
    var entry := ChildEntry(c, prefix, utf8, depth);
    if e != entry {
      var i := ListingOwner(c.node.children, entry.path, entry.utf8, depth + 1, e);
      var child := c.node.children[i];
      assert child in c.node.children;
      SubtreePaths(child, entry.path, entry.utf8, depth + 1, e);
      UnderIsBelow(Base(entry.path), child.name, e.path);
    }
  }

  /** The child whose subtree a listed entry belongs to. */
  lemma {:induction false} ListingOwner(children: seq<Child>, prefix: string, utf8: bool, depth: nat, e: Entry)
    returns (i: nat)
    requires e in Listing(children, prefix, utf8, depth)
    ensures i < |children| && e in Subtree(children[i], prefix, utf8, depth)
    decreases children, 0
  {
    if e in Subtree(children[0], prefix, utf8, depth) {
      i := 0;
    } else {
      i := ListingOwner(children[1..], prefix, utf8, depth, e);
      i := i + 1;
    }
  }

  /** A relative path names at most one entry of the tree. */
  lemma {:induction false} PathsIdentify(children: seq<Child>, prefix: string, utf8: bool, depth: nat, e1: Entry,
                                         e2: Entry)
    requires WellFormed(children)
    requires e1 in Listing(children, prefix, utf8, depth) && e2 in Listing(children, prefix, utf8, depth)
    requires e1.path == e2.path
    ensures e1 == e2
    decreases children
  {
    var i := ListingOwner(children, prefix, utf8, depth, e1);
    var j := ListingOwner(children, prefix, utf8, depth, e2);
    var c := children[i];
    SubtreePaths(c, prefix, utf8, depth, e1);
    SubtreePaths(children[j], prefix, utf8, depth, e2);
    SameNameUnder(Base(prefix), c.name, children[j].name, e1.path);
    assert i == j;
    var entry := ChildEntry(c, prefix, utf8, depth);
    if e1 != entry && e2 != entry {
      PathsIdentify(c.node.children, entry.path, entry.utf8, depth + 1, e1, e2);
    }
  }

  /* Sorting by path. */

  ghost predicate Ordered(s: seq<Entry>) {
    forall i, j :: 0 <= i < j < |s| ==> Text.StringLe(s[i].path, s[j].path)
  }

  ghost predicate PathsUnique(s: seq<Entry>) {
    forall x, y :: x in s && y in s && x.path == y.path ==> x == y
  }

  function Insert(e: Entry, s: seq<Entry>): (r: seq<Entry>)
    ensures multiset(r) == multiset(s) + multiset{e}
  {
    if s == [] then [e]
    else if Text.StringLe(e.path, s[0].path) then [e] + s
    else
      assert s == [s[0]] + s[1..];
      [s[0]] + Insert(e, s[1..])
  }

  /** Python's `sorted` on tuples that start with the path. */
  function Sorted(s: seq<Entry>): (r: seq<Entry>)
    ensures multiset(r) == multiset(s)
  {
    if s == [] then []
    else
      assert s == [s[0]] + s[1..];
      Insert(s[0], Sorted(s[1..]))
  }

  lemma {:induction false} InsertOrdered(e: Entry, s: seq<Entry>)
    requires Ordered(s)
    ensures Ordered(Insert(e, s))
  {
    if s != [] {
      if Text.StringLe(e.path, s[0].path) {
        forall i | 0 <= i < |s| ensures Text.StringLe(e.path, s[i].path) {
          if i > 0 { Text.StringLeTransitive(e.path, s[0].path, s[i].path); }
        }
      } else {
        Text.StringLeTotal(e.path, s[0].path);
        InsertOrdered(e, s[1..]);
        var rest := Insert(e, s[1..]);
        forall x | x in rest ensures Text.StringLe(s[0].path, x.path) {
          assert x in multiset(rest);
        }
      }
    }
  }

  lemma {:induction false} SortedOrdered(s: seq<Entry>)
    ensures Ordered(Sorted(s))
  {
    if s != [] {
      SortedOrdered(s[1..]);
      InsertOrdered(s[0], Sorted(s[1..]));
    }
  }

  lemma OrderedHeads(a: seq<Entry>, b: seq<Entry>)
    requires a != [] && b != [] && a[0] in b && b[0] in a
    requires Ordered(a) && Ordered(b) && PathsUnique(a)
    ensures a[0] == b[0]
  {
    var i :| 0 <= i < |b| && b[i] == a[0];
    var j :| 0 <= j < |a| && a[j] == b[0];
    if i > 0 && j > 0 {
      Text.StringLeAntisymmetric(a[0].path, b[0].path);
    }
  }

  lemma DropHead(a: seq<Entry>)
    requires a != []
    ensures multiset(a[1..]) == multiset(a) - multiset{a[0]}
    ensures Ordered(a) ==> Ordered(a[1..])
    ensures PathsUnique(a) ==> PathsUnique(a[1..])
  {
    assert a == [a[0]] + a[1..];
  }

  lemma SameLength(a: seq<Entry>, b: seq<Entry>)
    requires multiset(a) == multiset(b)
    ensures |a| == |b|
  {
    assert |multiset(a)| == |a| && |multiset(b)| == |b|;
  }

  /** When a path determines the entry, there is only one way to order the entries. */
  lemma {:induction false} OrderedUnique(a: seq<Entry>, b: seq<Entry>)
    requires multiset(a) == multiset(b) && Ordered(a) && Ordered(b) && PathsUnique(a)
    ensures a == b
  {
    SameLength(a, b);
    if a != [] {
      OrderedTails(a, b);
      OrderedUnique(a[1..], b[1..]);
      assert a == [a[0]] + a[1..] && b == [b[0]] + b[1..];
    }
  }

  lemma OrderedTails(a: seq<Entry>, b: seq<Entry>)
    requires a != [] && b != []
    requires multiset(a) == multiset(b) && Ordered(a) && Ordered(b) && PathsUnique(a)
    ensures a[0] == b[0] && multiset(a[1..]) == multiset(b[1..])
    ensures Ordered(a[1..]) && Ordered(b[1..]) && PathsUnique(a[1..])
  {
    assert a[0] in multiset(b) && b[0] in multiset(a);
    OrderedHeads(a, b);
    DropHead(a);
    DropHead(b);
  }

  lemma SortedPermuted(a: seq<Entry>, b: seq<Entry>)
    requires multiset(a) == multiset(b) && PathsUnique(b)
    ensures Sorted(a) == Sorted(b)
  {
    SortedOrdered(a);
    SortedOrdered(b);
    forall x, y | x in Sorted(a) && y in Sorted(a) && x.path == y.path ensures x == y {
      assert x in multiset(b) && y in multiset(b);
    }
    OrderedUnique(Sorted(a), Sorted(b));
  }
}

/** The directory walk, its sort, and why the order of directory listings cannot matter. */
module Walk {
  import opened Bytes
  import opened Wrappers
  import opened Tar

  /** A directory item as listed: `Refused` is a link, a special file or an unreadable directory. */
  datatype Node =
    | FileNode(name: bytes, data: Option<bytes>)
    | DirNode(name: bytes, children: seq<Node>)
    | Refused(name: bytes)

  // ---- What the walk pushes ----

  predicate ItemRefused(n: Node)
    decreases n, 1
  {
    n.Refused? || (n.DirNode? && AnyRefused(n.children))
  }

  predicate AnyRefused(nodes: seq<Node>)
    decreases nodes, 0
  {
    exists i | 0 <= i < |nodes| :: ItemRefused(nodes[i])
  }

  /** Pushes of one item: a directory after everything beneath it. */
  function ItemEntries(n: Node, prefix: bytes): seq<Entry>
    decreases n, 1
  {
    match n
    case FileNode(name, data) => [File(prefix + name, data)]
    case DirNode(name, children) => Entries(children, prefix + name + [SLASH]) + [Dir(prefix + name)]
    case Refused(_) => []
  }

  function Entries(nodes: seq<Node>, prefix: bytes): seq<Entry>
    decreases nodes, 0
  {
    if nodes == [] then [] else ItemEntries(nodes[0], prefix) + Entries(nodes[1..], prefix)
  }

  method WalkDir(nodes: seq<Node>, prefix: bytes, start: seq<Entry>) returns (r: Option<seq<Entry>>)
    ensures r == if AnyRefused(nodes) then None else Some(start + Entries(nodes, prefix))
    decreases nodes
  {
    var out := start;
    assert nodes[0..] == nodes;
    for i := 0 to |nodes|
      invariant forall j | 0 <= j < i :: !ItemRefused(nodes[j])
      invariant out + Entries(nodes[i..], prefix) == start + Entries(nodes, prefix)
    {
      var n := nodes[i];
      assert nodes[i..][0] == n && nodes[i..][1..] == nodes[i + 1..];
      ghost var rest := Entries(nodes[i + 1..], prefix);
      match n {
        case DirNode(name, children) =>
          var below := WalkDir(children, prefix + name + [SLASH], out);
          if below.None? {
            assert ItemRefused(nodes[i]);
            return None;
          }
          ghost var deep := Entries(children, prefix + name + [SLASH]);
          assert out + ((deep + [Dir(prefix + name)]) + rest) == ((out + deep) + [Dir(prefix + name)]) + rest;
          out := below.value + [Dir(prefix + name)];
        case FileNode(name, data) =>
          assert out + ([File(prefix + name, data)] + rest) == (out + [File(prefix + name, data)]) + rest;
          out := out + [File(prefix + name, data)];
        case Refused(_) =>
          assert ItemRefused(nodes[i]);
          return None;
      }
    }
    assert Entries(nodes[|nodes|..], prefix) == [] && out + [] == out;
    r := Some(out);
  }

  // ---- The sort ----

  /** Byte-wise lexicographic order. */
  predicate Before(a: bytes, b: bytes) {
    a == [] || (b != [] && (a[0] < b[0] || (a[0] == b[0] && Before(a[1..], b[1..]))))
  }

  /** Byte by byte: one is the start of the other, or smaller where they first differ. */
  lemma {:induction false} BeforeIs(a: bytes, b: bytes)
    ensures Before(a, b) <==> a <= b || exists k | 0 <= k < |a| && k < |b| :: a[..k] == b[..k] && a[k] < b[k]
    decreases |a|
  {
    if a != [] && b != [] && a[0] == b[0] {
      BeforeIs(a[1..], b[1..]);
      assert a == [a[0]] + a[1..] && b == [b[0]] + b[1..];
      if k :| 0 <= k < |a[1..]| && k < |b[1..]| && a[1..][..k] == b[1..][..k] && a[1..][k] < b[1..][k] {
        assert a[..k + 1] == [a[0]] + a[1..][..k] && b[..k + 1] == [b[0]] + b[1..][..k];
        assert a[k + 1] < b[k + 1];
      }
      if k :| 0 <= k < |a| && k < |b| && a[..k] == b[..k] && a[k] < b[k] {
        assert a[1..][..k - 1] == a[..k][1..] && b[1..][..k - 1] == b[..k][1..];
        assert a[1..][k - 1] < b[1..][k - 1];
      }
    } else if a != [] && b != [] && a[0] < b[0] {
      assert a[..0] == b[..0];
    } else if a != [] && b != [] {
      forall k | 0 < k < |a| && k < |b| ensures a[..k] != b[..k] {
        assert a[..k][0] != b[..k][0];
      }
    }
  }

  ghost predicate InOrder(s: seq<Entry>) {
    forall i, j | 0 <= i < j < |s| :: Before(s[i].rel, s[j].rel)
  }

  function Insert(e: Entry, s: seq<Entry>): seq<Entry> {
    if s == [] || Before(e.rel, s[0].rel) then [e] + s else [s[0]] + Insert(e, s[1..])
  }

  /** The stable sort by relative path. */
  function SortByRel(s: seq<Entry>): seq<Entry> {
    if s == [] then [] else Insert(s[0], SortByRel(s[1..]))
  }

  /** The whole walk below a root whose listing is `nodes`. */
  function WalkRoot(nodes: seq<Node>): Option<seq<Entry>> {
    if AnyRefused(nodes) then None else Some(SortByRel(Entries(nodes, [])))
  }

  lemma {:induction false} BeforeTotal(a: bytes, b: bytes)
    ensures Before(a, b) || Before(b, a)
  {
    if a != [] && b != [] && a[0] == b[0] {
      BeforeTotal(a[1..], b[1..]);
    }
  }

  lemma {:induction false} BeforeAntisymmetric(a: bytes, b: bytes)
    requires Before(a, b) && Before(b, a)
    ensures a == b
  {
    if a != [] {
      BeforeAntisymmetric(a[1..], b[1..]);
      assert a == [a[0]] + a[1..] && b == [b[0]] + b[1..];
    }
  }

  lemma {:induction false} BeforeTransitive(a: bytes, b: bytes, c: bytes)
    requires Before(a, b) && Before(b, c)
    ensures Before(a, c)
  {
    if a != [] && a[0] == b[0] == c[0] {
      BeforeTransitive(a[1..], b[1..], c[1..]);
    }
  }

  /** A path sorts strictly before everything it is a proper prefix of. */
  lemma {:induction false} PrefixBefore(a: bytes, x: bytes)
    requires x != []
    ensures !Before(a + x, a)
  {
    if a != [] {
      assert (a + x)[1..] == a[1..] + x;
      PrefixBefore(a[1..], x);
    }
  }

  lemma {:induction false} InsertSorts(e: Entry, s: seq<Entry>)
    requires InOrder(s)
    ensures InOrder(Insert(e, s)) && multiset(Insert(e, s)) == multiset(s) + multiset{e}
  {
    if s == [] {
    } else if Before(e.rel, s[0].rel) {
      forall j | 1 <= j < |s| ensures Before(e.rel, s[j].rel) {
        BeforeTransitive(e.rel, s[0].rel, s[j].rel);
      }
    } else {
      BeforeTotal(e.rel, s[0].rel);
      assert s == [s[0]] + s[1..];
      InsertSorts(e, s[1..]);
      LeastInFront(s[0], Insert(e, s[1..]), s[1..], e);
    }
  }

  lemma LeastInFront(head: Entry, t: seq<Entry>, rest: seq<Entry>, e: Entry)
    requires InOrder(t) && multiset(t) == multiset(rest) + multiset{e}
    requires Before(head.rel, e.rel) && forall j | 0 <= j < |rest| :: Before(head.rel, rest[j].rel)
    ensures InOrder([head] + t)
  {
    forall j | 0 <= j < |t| ensures Before(head.rel, t[j].rel) {
      assert t[j] in multiset(t);
      assert t[j] == e || t[j] in rest;
    }
  }

  lemma {:induction false} SortSorts(s: seq<Entry>)
    ensures InOrder(SortByRel(s)) && multiset(SortByRel(s)) == multiset(s)
  {
    if s != [] {
      SortSorts(s[1..]);
      InsertSorts(s[0], SortByRel(s[1..]));
      assert s == [s[0]] + s[1..];
    }
  }

  ghost predicate RelDetermines(s: seq<Entry>) {
    forall x, y | x in s && y in s && x.rel == y.rel :: x == y
  }

  lemma HeadIsLeast(a: seq<Entry>, x: Entry)
    requires InOrder(a) && x in multiset(a)
    ensures a[0] == x || Before(a[0].rel, x.rel)
  {
    var j :| 0 <= j < |a| && a[j] == x;
  }

  lemma TailMultiset(a: seq<Entry>)
    requires a != []
    ensures multiset(a[1..]) == multiset(a) - multiset{a[0]}
  {
    assert a == [a[0]] + a[1..];
  }

  lemma {:induction false} SortedUnique(a: seq<Entry>, b: seq<Entry>)
    requires InOrder(a) && InOrder(b) && multiset(a) == multiset(b) && RelDetermines(a)
    ensures a == b
    decreases |a|
  {
    assert |multiset(a)| == |a| && |multiset(b)| == |b|;
    if a != [] {
      assert a[0] in multiset(a) && b[0] in multiset(b);
      HeadIsLeast(a, b[0]);
      HeadIsLeast(b, a[0]);
      assert b[0] in a && a[0] in a;
      if a[0] != b[0] {
        BeforeAntisymmetric(a[0].rel, b[0].rel);
      }
      TailMultiset(a);
      TailMultiset(b);
      SortedUnique(a[1..], b[1..]);
      assert a == [a[0]] + a[1..] && b == [b[0]] + b[1..];
    }
  }

  // ---- Reordered listings ----

  function Without(s: seq<Node>, j: nat): seq<Node>
    requires j < |s|
  {
    s[..j] + s[j + 1..]
  }

  /** The same item, its directory listed in any order at every level. */
  ghost predicate SameItem(x: Node, y: Node)
    decreases x, 1
  {
    if x.DirNode? then y.DirNode? && x.name == y.name && Reordered(x.children, y.children) else x == y
  }

  ghost predicate Reordered(a: seq<Node>, b: seq<Node>)
    decreases a, 0
  {
    if a == [] then b == []
    else exists j | 0 <= j < |b| :: SameItem(a[0], b[j]) && Reordered(a[1..], Without(b, j))
  }

  lemma {:induction false} EntriesAppend(a: seq<Node>, b: seq<Node>, prefix: bytes)
    ensures Entries(a + b, prefix) == Entries(a, prefix) + Entries(b, prefix)
    decreases |a|
  {
    if a == [] {
      assert a + b == b;
    } else {
      assert (a + b)[0] == a[0] && (a + b)[1..] == a[1..] + b;
      EntriesAppend(a[1..], b, prefix);
    }
  }

  lemma EntriesWithout(b: seq<Node>, j: nat, prefix: bytes)
    requires j < |b|
    ensures multiset(Entries(b, prefix)) == multiset(ItemEntries(b[j], prefix)) + multiset(Entries(Without(b, j), prefix))
  {
    EntriesAppend(b[..j], b[j..], prefix);
    assert b[..j] + b[j..] == b && b[j..][0] == b[j] && b[j..][1..] == b[j + 1..];
    EntriesAppend(b[..j], b[j + 1..], prefix);
  }

  lemma RefusedWithout(b: seq<Node>, j: nat)
    requires j < |b|
    ensures AnyRefused(b) <==> ItemRefused(b[j]) || AnyRefused(Without(b, j))
  {
    hide ItemRefused;
    var w := Without(b, j);
    if AnyRefused(b) {
      var i :| 0 <= i < |b| && ItemRefused(b[i]);
      if i != j {
        assert w[if i < j then i else i - 1] == b[i];
      }
    }
    if AnyRefused(w) {
      var i :| 0 <= i < |w| && ItemRefused(w[i]);
      assert b[if i < j then i else i + 1] == w[i];
    }
  }

  lemma {:induction false} SameItemSamePushes(x: Node, y: Node, prefix: bytes)
    requires SameItem(x, y)
    ensures multiset(ItemEntries(x, prefix)) == multiset(ItemEntries(y, prefix))
    ensures ItemRefused(x) == ItemRefused(y)
    decreases x, 1
  {
    if x.DirNode? {
      ReorderedSamePushes(x.children, y.children, prefix + x.name + [SLASH]);
    }
  }

  lemma {:induction false} ReorderedSamePushes(a: seq<Node>, b: seq<Node>, prefix: bytes)
    requires Reordered(a, b)
    ensures multiset(Entries(a, prefix)) == multiset(Entries(b, prefix))
    ensures AnyRefused(a) == AnyRefused(b)
    decreases a, 0
  {
    if a != [] {
      var j :| 0 <= j < |b| && SameItem(a[0], b[j]) && Reordered(a[1..], Without(b, j));
      SameItemSamePushes(a[0], b[j], prefix);
      ReorderedSamePushes(a[1..], Without(b, j), prefix);
      EntriesWithout(b, j, prefix);
      RefusedWithout(b, j);
      RefusedWithout(a, 0);
      assert Without(a, 0) == a[1..];
    }
  }

  // ---- Paths tell entries apart ----

  /** Names as a file system gives them: no slash inside, no two alike in one directory. */
  ghost predicate WellNamed(nodes: seq<Node>)
    decreases nodes
  {
    && (forall i | 0 <= i < |nodes| :: SLASH !in nodes[i].name)
    && (forall i, j | 0 <= i < j < |nodes| :: nodes[i].name != nodes[j].name)
    && (forall i | 0 <= i < |nodes| :: nodes[i].DirNode? ==> WellNamed(nodes[i].children))
  }

  lemma {:induction false} EntryHasItem(nodes: seq<Node>, prefix: bytes, e: Entry) returns (i: nat)
    requires e in Entries(nodes, prefix)
    ensures i < |nodes| && e in ItemEntries(nodes[i], prefix)
    decreases |nodes|
  {
    if e in ItemEntries(nodes[0], prefix) {
      i := 0;
    } else {
      i := EntryHasItem(nodes[1..], prefix, e);
      assert nodes[1..][i] == nodes[i + 1];
      i := i + 1;
    }
  }

  /** Every path below `prefix` is the prefix, a name of the listing, and perhaps a slash and more. */
  lemma {:induction false} PathShape(n: Node, prefix: bytes, e: Entry) returns (rest: bytes)
    requires e in ItemEntries(n, prefix)
    ensures e.rel == prefix + n.name + rest
    ensures rest != [] ==> rest[0] == SLASH && n.DirNode? && e in Entries(n.children, prefix + n.name + [SLASH])
    ensures rest == [] && n.DirNode? ==> e == Dir(prefix + n.name)
    decreases n
  {
    rest := [];
    match n
    case DirNode(name, children) =>
      var below := prefix + name + [SLASH];
      if e in Entries(children, below) {
        var i := EntryHasItem(children, below, e);
        var r := PathShape(children[i], below, e);
        rest := [SLASH] + children[i].name + r;
        assert e.rel == prefix + name + rest;
      }
    case FileNode(name, _) =>
      assert e.rel == prefix + name + [];
    case Refused(_) =>
  }

  /** The text before the first slash. */
  function Component(s: bytes): bytes {
    if s == [] || s[0] == SLASH then [] else [s[0]] + Component(s[1..])
  }

  lemma {:induction false} ComponentIsName(name: bytes, rest: bytes)
    requires SLASH !in name && (rest == [] || rest[0] == SLASH)
    ensures Component(name + rest) == name
  {
    if name == [] {
      assert name + rest == rest;
    } else {
      assert (name + rest)[1..] == name[1..] + rest;
      ComponentIsName(name[1..], rest);
    }
  }

  lemma SamePathSameItem(nodes: seq<Node>, prefix: bytes, x: Entry, y: Entry, i: nat, j: nat)
    requires WellNamed(nodes) && i < |nodes| && j < |nodes| && x.rel == y.rel
    requires x in ItemEntries(nodes[i], prefix) && y in ItemEntries(nodes[j], prefix)
    ensures i == j
  {
    var r := PathShape(nodes[i], prefix, x);
    var q := PathShape(nodes[j], prefix, y);
    assert x.rel[|prefix|..] == nodes[i].name + r && y.rel[|prefix|..] == nodes[j].name + q;
    ComponentIsName(nodes[i].name, r);
    ComponentIsName(nodes[j].name, q);
  }

  lemma {:induction false} PathsDetermine(nodes: seq<Node>, prefix: bytes)
    requires WellNamed(nodes)
    ensures RelDetermines(Entries(nodes, prefix))
    decreases nodes
  {
    forall x, y | x in Entries(nodes, prefix) && y in Entries(nodes, prefix) && x.rel == y.rel ensures x == y {
      var i := EntryHasItem(nodes, prefix, x);
      var j := EntryHasItem(nodes, prefix, y);
      SamePathSameItem(nodes, prefix, x, y, i, j);
      var r := PathShape(nodes[i], prefix, x);
      var q := PathShape(nodes[i], prefix, y);
      assert x.rel[|prefix + nodes[i].name|..] == r && y.rel[|prefix + nodes[i].name|..] == q;
      if nodes[i].DirNode? && r != [] {
        PathsDetermine(nodes[i].children, prefix + nodes[i].name + [SLASH]);
      }
    }
  }

  /** Every order in which directories may be listed walks to the same sequence of entries. */
  lemma WalkOrderIndependent(a: seq<Node>, b: seq<Node>)
    requires WellNamed(a) && Reordered(a, b)
    ensures WalkRoot(a) == WalkRoot(b)
  {
    ReorderedSamePushes(a, b, []);
    var x, y := Entries(a, []), Entries(b, []);
    SortSorts(x);
    SortSorts(y);
    PathsDetermine(a, []);
    assert RelDetermines(SortByRel(x)) by {
      forall e | e in SortByRel(x) ensures e in x {
        assert e in multiset(SortByRel(x));
      }
    }
    SortedUnique(SortByRel(x), SortByRel(y));
  }

  // ---- Parents come first ----

  lemma {:induction false} ItemInEntries(nodes: seq<Node>, prefix: bytes, i: nat, e: Entry)
    requires i < |nodes| && e in ItemEntries(nodes[i], prefix)
    ensures e in Entries(nodes, prefix)
    decreases |nodes|
  {
    if i > 0 {
      ItemInEntries(nodes[1..], prefix, i - 1, e);
    }
  }

  /** An entry sits directly under the root of the walk, or under a directory the walk also pushed. */
  lemma {:induction false} ParentPushed(nodes: seq<Node>, prefix: bytes, e: Entry) returns (parent: bytes, name: bytes)
    requires WellNamed(nodes) && e in Entries(nodes, prefix)
    ensures SLASH !in name
    ensures e.rel == prefix + name || (e.rel == parent + [SLASH] + name && Dir(parent) in Entries(nodes, prefix))
    decreases nodes
  {
    var i := EntryHasItem(nodes, prefix, e);
    var n := nodes[i];
    var rest := PathShape(n, prefix, e);
    parent, name := [], n.name;
    if rest != [] {
      var below := prefix + n.name + [SLASH];
      parent, name := ParentPushed(n.children, below, e);
      if e.rel == below + name {
        parent := prefix + n.name;
        ItemInEntries(nodes, prefix, i, Dir(parent));
      } else {
        ItemInEntries(nodes, prefix, i, Dir(parent));
      }
    } else {
      assert e.rel == prefix + name;
    }
  }

  lemma AboveComesFirst(s: seq<Entry>, p: nat, k: nat, name: bytes)
    requires InOrder(s) && p < |s| && k < |s| && s[k].rel == s[p].rel + [SLASH] + name
    ensures p < k
  {
    assert s[k].rel == s[p].rel + ([SLASH] + name);
    assert |s[k].rel| > |s[p].rel|;
    PrefixBefore(s[p].rel, [SLASH] + name);
  }

  /** In the archive every entry's directory is present and comes before it, although the walk
      pushed it afterwards. */
  lemma ParentFirst(nodes: seq<Node>, k: nat) returns (name: bytes, p: nat)
    requires WellNamed(nodes) && WalkRoot(nodes).Some? && k < |WalkRoot(nodes).value|
    ensures SLASH !in name
    ensures var s := WalkRoot(nodes).value;
            s[k].rel == name || (p < k && s[p].Dir? && s[k].rel == s[p].rel + [SLASH] + name)
  {
    var x := Entries(nodes, []);
    var s := SortByRel(x);
    SortSorts(x);
    assert s[k] in multiset(s);
    var parent;
    parent, name := ParentPushed(nodes, [], s[k]);
    p := 0;
    if s[k].rel == [] + name {
      assert [] + name == name;
    } else {
      assert Dir(parent) in multiset(s);
      p :| 0 <= p < |s| && s[p] == Dir(parent);
      AboveComesFirst(s, p, k, name);
    }
  }

  lemma LastSlash(parent: bytes, name: bytes, i: nat)
    requires SLASH !in name && i < |parent + [SLASH] + name| && (parent + [SLASH] + name)[i] == SLASH
    ensures i <= |parent|
  {
    var t := parent + [SLASH] + name;
    forall j | |parent| < j < |t| ensures t[j] != SLASH {
      assert t[j] in name;
    }
  }

  /** Every directory an entry's path goes through, at whatever depth, is in the archive as a directory and before it. */
  lemma {:induction false} AncestorsFirst(nodes: seq<Node>, k: nat, i: nat) returns (p: nat)
    requires WellNamed(nodes) && WalkRoot(nodes).Some? && k < |WalkRoot(nodes).value|
    requires i < |WalkRoot(nodes).value[k].rel| && WalkRoot(nodes).value[k].rel[i] == SLASH
    ensures var s := WalkRoot(nodes).value; p < k && s[p] == Dir(s[k].rel[..i])
    decreases k
  {
    hide WellNamed, WalkRoot;
    var s := WalkRoot(nodes).value;
    var name, q := ParentFirst(nodes, k);
    assert s[k].rel == s[q].rel + [SLASH] + name;
    if i == |s[q].rel| {
      p := q;
      assert s[k].rel[..i] == s[q].rel;
    } else {
      LastSlash(s[q].rel, name, i);
      p := AncestorsFirst(nodes, q, i);
      assert s[q].rel[..i] == s[k].rel[..i];
    }
  }

  // ---- The walk is the tree ----

  /** Going down by these names from this listing leads to `n`. */
  ghost predicate LeadsTo(nodes: seq<Node>, path: seq<bytes>, n: Node)
    decreases |path|
  {
    path != [] && exists i | 0 <= i < |nodes| :: nodes[i].name == path[0] && EndsIn(nodes[i], path, n)
  }

  ghost predicate EndsIn(top: Node, path: seq<bytes>, n: Node)
    requires path != []
    decreases |path|, 0
  {
    if |path| == 1 then top == n else top.DirNode? && LeadsTo(top.children, path[1..], n)
  }

  /** The names with a slash between each two. */
  function PathText(path: seq<bytes>): bytes
    requires path != []
  {
    if |path| == 1 then path[0] else path[0] + [SLASH] + PathText(path[1..])
  }

  /** A file with its own bytes, or a directory, under this path. */
  predicate IsEntryOf(e: Entry, rel: bytes, n: Node) {
    (n.FileNode? && e == File(rel, n.data)) || (n.DirNode? && e == Dir(rel))
  }

  lemma {:induction false} Pushed(nodes: seq<Node>, prefix: bytes, path: seq<bytes>, n: Node, e: Entry)
    requires LeadsTo(nodes, path, n) && IsEntryOf(e, prefix + PathText(path), n)
    ensures e in Entries(nodes, prefix)
    decreases |path|
  {
    var i :| 0 <= i < |nodes| && nodes[i].name == path[0] && EndsIn(nodes[i], path, n);
    if |path| > 1 {
      var below := prefix + path[0] + [SLASH];
      assert prefix + PathText(path) == below + PathText(path[1..]);
      Pushed(nodes[i].children, below, path[1..], n, e);
    }
    ItemInEntries(nodes, prefix, i, e);
  }

  lemma {:induction false} Placed(nodes: seq<Node>, prefix: bytes, e: Entry) returns (path: seq<bytes>, n: Node)
    requires e in Entries(nodes, prefix)
    ensures LeadsTo(nodes, path, n) && IsEntryOf(e, prefix + PathText(path), n)
    decreases nodes
  {
    var i := EntryHasItem(nodes, prefix, e);
    n := nodes[i];
    path := [n.name];
    if n.DirNode? && e in Entries(n.children, prefix + n.name + [SLASH]) {
      var below := prefix + nodes[i].name + [SLASH];
      path, n := Placed(nodes[i].children, below, e);
      var whole := [nodes[i].name] + path;
      assert whole[1..] == path;
      assert EndsIn(nodes[i], whole, n);
      assert below + PathText(path) == prefix + PathText(whole);
      path := whole;
    } else {
      assert EndsIn(nodes[i], path, n);
    }
  }

  lemma WellNamedRest(nodes: seq<Node>)
    requires WellNamed(nodes) && nodes != []
    ensures WellNamed(nodes[1..])
  {
    assert forall i | 0 <= i < |nodes| - 1 :: nodes[1..][i] == nodes[i + 1];
  }

  lemma {:induction false} PushedOnce(nodes: seq<Node>, prefix: bytes, e: Entry)
    requires WellNamed(nodes)
    ensures multiset(Entries(nodes, prefix))[e] <= 1
    decreases nodes, 0
  {
    if nodes != [] {
      WellNamedRest(nodes);
      ItemOnce(nodes[0], prefix, e);
      PushedOnce(nodes[1..], prefix, e);
      ApartFromRest(nodes, prefix, e);
    }
  }

  /** What one item pushes no other item pushes. */
  lemma ApartFromRest(nodes: seq<Node>, prefix: bytes, e: Entry)
    requires WellNamed(nodes) && nodes != []
    ensures e !in ItemEntries(nodes[0], prefix) || e !in Entries(nodes[1..], prefix)
  {
    if e in Entries(nodes[1..], prefix) {
      var i := EntryHasItem(nodes[1..], prefix, e);
      assert nodes[1..][i] == nodes[i + 1];
      if e in ItemEntries(nodes[0], prefix) {
        SamePathSameItem(nodes, prefix, e, e, 0, i + 1);
      }
    }
  }

  lemma {:induction false} ItemOnce(n: Node, prefix: bytes, e: Entry)
    requires n.DirNode? ==> WellNamed(n.children)
    ensures multiset(ItemEntries(n, prefix))[e] <= 1
    decreases n, 1
  {
    if n.DirNode? {
      var below := prefix + n.name + [SLASH];
      PushedOnce(n.children, below, e);
      if e in Entries(n.children, below) {
        var i := EntryHasItem(n.children, below, e);
        var rest := PathShape(n.children[i], below, e);
        assert |e.rel| > |prefix + n.name|;
      }
    }
  }

  /** Whatever can be reached below the root, every file with its own bytes and every directory, is in the walk under its path,
      exactly once; and nothing else is. */
  lemma WalksTree(nodes: seq<Node>, e: Entry)
    requires WellNamed(nodes) && WalkRoot(nodes).Some?
    ensures var s := WalkRoot(nodes).value;
            && multiset(s)[e] <= 1
            && (e in s <==> exists path, n | LeadsTo(nodes, path, n) :: IsEntryOf(e, PathText(path), n))
  {
    var x := Entries(nodes, []);
    var s := SortByRel(x);
    SortSorts(x);
    PushedOnce(nodes, [], e);
    assert e in s <==> e in multiset(s);
    if e in x {
      var path, n := Placed(nodes, [], e);
      assert [] + PathText(path) == PathText(path);
    }
    forall path, n | LeadsTo(nodes, path, n) && IsEntryOf(e, PathText(path), n) ensures e in x {
      assert [] + PathText(path) == PathText(path);
      Pushed(nodes, [], path, n, e);
    }
  }

  lemma {:induction false} RefusedAbove(nodes: seq<Node>, path: seq<bytes>, n: Node)
    requires LeadsTo(nodes, path, n) && n.Refused?
    ensures AnyRefused(nodes)
    decreases |path|
  {
    var i :| 0 <= i < |nodes| && nodes[i].name == path[0] && EndsIn(nodes[i], path, n);
    if |path| > 1 {
      RefusedAbove(nodes[i].children, path[1..], n);
    }
    assert ItemRefused(nodes[i]);
  }

  lemma {:induction false} RefusedBelow(nodes: seq<Node>) returns (path: seq<bytes>, n: Node)
    requires AnyRefused(nodes)
    ensures LeadsTo(nodes, path, n) && n.Refused?
    decreases nodes
  {
    var i :| 0 <= i < |nodes| && ItemRefused(nodes[i]);
    n := nodes[i];
    path := [n.name];
    if nodes[i].DirNode? {
      path, n := RefusedBelow(nodes[i].children);
      var whole := [nodes[i].name] + path;
      assert whole[1..] == path;
      assert EndsIn(nodes[i], whole, n);
      path := whole;
    } else {
      assert EndsIn(nodes[i], path, n);
    }
  }

  /** The walk fails exactly if a link, a special file or an unreadable directory is anywhere below the root. */
  lemma WalkRefuses(nodes: seq<Node>)
    ensures WalkRoot(nodes).None? <==> exists path, n :: LeadsTo(nodes, path, n) && n.Refused?
  {
    if AnyRefused(nodes) {
      var path, n := RefusedBelow(nodes);
      assert LeadsTo(nodes, path, n) && n.Refused?;
    } else {
      forall path, n | LeadsTo(nodes, path, n) ensures !n.Refused? {
        if n.Refused? {
          RefusedAbove(nodes, path, n);
        }
      }
    }
  }
}

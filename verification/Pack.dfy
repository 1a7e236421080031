/** `pack` end to end: walk, tar, gzip. */
module Pack {
  import opened Bytes
  import opened Wrappers
  import opened Tar
  import TarReader
  import Gzip
  import opened Walk

  ghost predicate Packable(nodes: seq<Node>) {
    WalkRoot(nodes).Some? ==> AllAddressable(WalkRoot(nodes).value)
  }

  ghost function Packed(nodes: seq<Node>): Option<bytes>
    requires Packable(nodes)
  {
    match WalkRoot(nodes)
    case None => None
    case Some(entries) =>
      match Archive(entries)
      case None => None
      case Some(t) => Some(Gzip.Compressed(t))
  }

  method Pack(nodes: seq<Node>) returns (r: Option<bytes>)
    requires Packable(nodes)
    ensures r == Packed(nodes)
  {
    var pushed := WalkDir(nodes, [], []);
    if pushed.None? {
      return None;
    }
    assert [] + Entries(nodes, []) == Entries(nodes, []);
    var archive := Tar.Tar(SortByRel(pushed.value));
    if archive.None? {
      return None;
    }
    var z := Gzip.Compress(archive.value);
    r := Some(z);
  }

  /** Every order in which the directories may be listed packs to the same bytes. */
  lemma PackOrderIndependent(a: seq<Node>, b: seq<Node>)
    requires WellNamed(a) && Reordered(a, b) && Packable(a)
    ensures Packable(b) && Packed(a) == Packed(b)
  {
    WalkOrderIndependent(a, b);
  }

  /** Unzipping and untarring a packed folder gives back its sorted entries exactly when each
      entry is recoverable. */
  lemma PackRoundTrip(nodes: seq<Node>)
    requires Packable(nodes) && Packed(nodes).Some?
    ensures var entries := WalkRoot(nodes).value;
            var t := Gzip.Gunzip(Packed(nodes).value);
            t.Some? && (TarReader.Untar(t.value) == Some(TarReader.MembersOf(entries))
                        <==> TarReader.AllRecoverable(entries))
  {
    var entries := WalkRoot(nodes).value;
    var t := Archive(entries).value;
    TarReader.ArchiveLength(entries);
    Gzip.RoundTrip(t);
    TarReader.RoundTrip(entries);
  }

  /** A path goes into a header: short, or with a slash to cut it at. */
  ghost predicate PathFits(path: bytes) {
    |path| <= 100 || exists i | 0 <= i < |path| :: path[i] == 47 && i <= 155 && 1 <= |path| - i - 1 <= 100
  }

  /** What a folder may hold under this path: a readable file or a readable directory, whose path fits. */
  ghost predicate Carried(rel: bytes, n: Node) {
    match n
    case FileNode(_, data) => data.Some? && PathFits(rel)
    case DirNode(_, _) => PathFits(rel + [47])
    case Refused(_) => false
  }

  lemma CarriedWrites(rel: bytes, n: Node, e: Entry)
    requires IsEntryOf(e, rel, n)
    ensures Carried(rel, n) <==> TarReader.Writable(e)
  {
    var path := EntryPath(e);
    assert (exists k :: LegalSplit(path, k)) <==>
           (exists i | 0 <= i < |path| :: path[i] == 47 && i <= 155 && 1 <= |path| - i - 1 <= 100) by {
      assert forall i | 0 <= i < |path| :: LegalSplit(path, i) <==> path[i] == 47 && i <= 155 && 1 <= |path| - i - 1 <= 100;
    }
  }

  ghost predicate AllCarried(nodes: seq<Node>) {
    forall path, n | LeadsTo(nodes, path, n) :: Carried(PathText(path), n)
  }

  lemma EntryWritten(nodes: seq<Node>, e: Entry)
    requires WellNamed(nodes) && WalkRoot(nodes).Some? && AllCarried(nodes) && e in WalkRoot(nodes).value
    ensures TarReader.Writable(e)
  {
    hide WalkRoot, Carried, TarReader.Writable, WellNamed;
    WalksTree(nodes, e);
    var path, n :| LeadsTo(nodes, path, n) && IsEntryOf(e, PathText(path), n);
    CarriedWrites(PathText(path), n, e);
  }

  lemma NodeCarried(nodes: seq<Node>, path: seq<bytes>, n: Node)
    requires WellNamed(nodes) && WalkRoot(nodes).Some? && forall e | e in WalkRoot(nodes).value :: TarReader.Writable(e)
    requires LeadsTo(nodes, path, n)
    ensures Carried(PathText(path), n)
  {
    if n.Refused? {
      RefusedAbove(nodes, path, n);
    } else {
      hide WalkRoot, Carried, TarReader.Writable, WellNamed;
      var e := if n.FileNode? then File(PathText(path), n.data) else Dir(PathText(path));
      WalksTree(nodes, e);
      assert IsEntryOf(e, PathText(path), n);
      CarriedWrites(PathText(path), n, e);
    }
  }

  /** A folder packs exactly if everything below it can be carried: no link, special file, unreadable file or directory, and no
      path that fits no header, at any depth. */
  lemma PacksUnless(nodes: seq<Node>)
    requires WellNamed(nodes) && Packable(nodes)
    ensures Packed(nodes).Some? <==> AllCarried(nodes)
  {
    WalkRefuses(nodes);
    if WalkRoot(nodes).None? {
      var path, n :| LeadsTo(nodes, path, n) && n.Refused?;
      assert !Carried(PathText(path), n);
    } else {
      hide WalkRoot, LeadsTo, Carried, TarReader.Writable, WellNamed;
      var s := WalkRoot(nodes).value;
      TarReader.WritesUnless(s);
      if AllCarried(nodes) {
        forall i | 0 <= i < |s| ensures TarReader.Writable(s[i]) {
          EntryWritten(nodes, s[i]);
        }
      } else if Archive(s).Some? {
        AllCarriedBy(nodes);
      }
    }
  }

  lemma AllCarriedBy(nodes: seq<Node>)
    requires WellNamed(nodes) && WalkRoot(nodes).Some?
    requires forall i | 0 <= i < |WalkRoot(nodes).value| :: TarReader.Writable(WalkRoot(nodes).value[i])
    ensures AllCarried(nodes)
  {
    hide WalkRoot, Carried, TarReader.Writable, WellNamed;
    forall path, n | LeadsTo(nodes, path, n) ensures Carried(PathText(path), n) {
      NodeCarried(nodes, path, n);
    }
  }
}

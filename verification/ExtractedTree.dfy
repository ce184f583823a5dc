/** The tree that an archive is extracted to, step by step, and what it must be in
    the end. */
module ExtractedTree {
  import opened Outcomes
  import opened ByteStrings
  import opened LinkGraph
  import opened ArchiveGraph

  const PRIVATE_MODE: nat := 0x1C0 // 0o700

  /** Two names of one inode hold the same file, the number included. */
  datatype Node = Dir(mode: nat) | File(inode: nat, data: Bytes, mode: nat) | Link(target: seq<string>)

  type Tree = map<Path, Node>

  datatype ExtractError = NotADirectory | TargetUnsafe | SystemError | TreeMismatch

  type Done = Result<(), ExtractError>

  /** p is the path of a member that is in place, or leads there. */
  ghost predicate Covered(done: set<Path>, p: Path) {
    p == [] || exists q | q in done :: p <= q
  }

  /** The node of a member that is in place. */
  ghost predicate Holds(tree: Tree, index: Index, links: Links, p: Path)
    requires p in index && (index[p].kind.Hardlink? ==> Terminates(links, p))
  {
    && p in tree
    && match index[p].kind
       case Directory => tree[p].Dir?
       case Regular => tree[p].File? && tree[p].data == index[p].data && tree[p].mode == index[p].mode
       case Symlink => tree[p] == Link(index[p].target)
       case Hardlink => var q := HardlinkTarget(index, links, p); q in tree && tree[p] == tree[q]
  }

  /** Exactly the members done are in place, with the directories that they need;
      the directories settled have their own modes, all others the private one. */
  ghost predicate Built(tree: Tree, index: Index, links: Links, done: set<Path>, settled: set<Path>) {
    && done <= index.Keys
    && [] in tree && tree[[]].Dir?
    && (forall p | p in done && index[p].kind.Hardlink? :: Terminates(links, p))
    && (forall p :: p in tree <==> Covered(done, p))
    && (forall p | p in done :: Holds(tree, index, links, p))
    && (forall p | p in tree && (p !in done || index[p].kind.Directory?) ::
          tree[p] == Dir(if p in settled && p in index then index[p].mode else PRIVATE_MODE))
  }

  /** What a verified tree is: all members, in the directories that they need. */
  ghost predicate Matches(tree: Tree, index: Index, links: Links) {
    Built(tree, index, links, index.Keys, index.Keys)
  }

  lemma CoveredMore(done: set<Path>, q: Path, p: Path)
    ensures Covered(done + {q}, p) <==> Covered(done, p) || p <= q
  {
    if Covered(done, p) && p != [] {
      var x :| x in done && p <= x;
      assert x in done + {q};
    }
    assert q in done + {q};
  }

  lemma ParentPrefix(parts: Path, p: Path)
    requires parts != []
    ensures p <= parts <==> p <= parts[..|parts| - 1] || p == parts
  {
  }

  /** The tree with the directories along a path. */
  ghost predicate Grown(before: Tree, after: Tree, parts: Path) {
    && (forall p :: p in after <==> p in before || p <= parts)
    && (forall p | p in after :: after[p] == if p in before then before[p] else Dir(PRIVATE_MODE))
  }

  /** The tree with a new node, and the directories above it. */
  ghost predicate Placed(before: Tree, after: Tree, parts: Path, node: Node) {
    && (forall p :: p in after <==> p in before || p <= parts)
    && parts !in before
    && (forall p | p in after :: after[p] == if p in before then before[p] else if p == parts then node else Dir(PRIVATE_MODE))
  }

  /** Nothing stands in the way of a path. */
  ghost predicate Free(tree: Tree, parts: Path) {
    forall p | p < parts && p in tree :: tree[p].Dir?
  }

  lemma FreeAbove(tree: Tree, parts: Path)
    requires parts != []
    ensures var parent := parts[..|parts| - 1];
      Free(tree, parts) ==> Free(tree, parent) && (parent in tree ==> tree[parent].Dir?)
  {
  }

  lemma PlacedBelow(before: Tree, grown: Tree, parts: Path, node: Node)
    requires parts != [] && Grown(before, grown, parts[..|parts| - 1]) && parts !in grown
    ensures Placed(before, grown[parts := node], parts, node)
  {
    var after := grown[parts := node];
    forall p ensures p in after <==> p in before || p <= parts {
      ParentPrefix(parts, p);
    }
  }

  ghost predicate RootAndParents(index: Index) {
    ParentsAreDirectories(index) && ([] in index ==> index[[]].kind.Directory?)
  }

  /** Only directories are above a member. */
  lemma AboveIsDirectory(tree: Tree, index: Index, links: Links, done: set<Path>, settled: set<Path>, p: Path)
    requires Built(tree, index, links, done, settled) && RootAndParents(index) && p in index
    ensures Free(tree, p)
  {
  }

  /** A new member finds its place free. */
  lemma PlaceIsFree(tree: Tree, index: Index, links: Links, done: set<Path>, settled: set<Path>, p: Path)
    requires Built(tree, index, links, done, settled) && RootAndParents(index)
    requires p in index && p !in done && !index[p].kind.Directory?
    ensures p != [] && p !in tree
  {
    assert !(exists q :: q in done && p <= q) by {
      forall q | q in done ensures !(p <= q) {
        assert p != q && !(p < q);
      }
    }
  }

  /** A new directory, or one that was there because others need it. */
  lemma DirectoryBuilt(before: Tree, after: Tree, index: Index, links: Links, done: set<Path>, p: Path)
    requires Built(before, index, links, done, {}) && Grown(before, after, p)
    requires p in index && p !in done && index[p].kind.Directory?
    requires p in before ==> before[p].Dir?
    ensures Built(after, index, links, done + {p}, {})
  {
    forall q ensures q in after <==> Covered(done + {p}, q) {
      CoveredMore(done, p, q);
    }
    forall q | q in done ensures Holds(after, index, links, q) {
      HoldsStill(before, after, index, links, q);
    }
  }

  lemma HoldsStill(before: Tree, after: Tree, index: Index, links: Links, p: Path)
    requires p in index && (index[p].kind.Hardlink? ==> Terminates(links, p))
    requires Holds(before, index, links, p)
    requires forall q | q in before :: q in after && after[q] == before[q]
    ensures Holds(after, index, links, p)
  {
  }

  /** A new file or link. */
  lemma NodeBuilt(before: Tree, after: Tree, index: Index, links: Links, done: set<Path>, p: Path, node: Node)
    requires Built(before, index, links, done, {}) && Placed(before, after, p, node)
    requires p in index && !index[p].kind.Directory?
    requires index[p].kind.Hardlink? ==> Terminates(links, p)
    requires Holds(after, index, links, p)
    ensures Built(after, index, links, done + {p}, {})
  {
    forall q ensures q in after <==> Covered(done + {p}, q) {
      CoveredMore(done, p, q);
    }
    forall q | q in done ensures Holds(after, index, links, q) {
      HoldsStill(before, after, index, links, q);
    }
  }

  /** Names of one inode show one file; the numbers from next on are unused. */
  ghost predicate Agree(tree: Tree, next: nat) {
    && (forall p | p in tree && tree[p].File? :: tree[p].inode < next)
    && (forall p, q | p in tree && q in tree && tree[p].File? && tree[q].File? && tree[p].inode == tree[q].inode ::
          tree[p] == tree[q])
  }

  /** A node that is not a file, a file that has a name already, or a new one. */
  ghost predicate Fits(tree: Tree, next: nat, node: Node) {
    node.File? ==>
      && node.inode < next
      && forall p | p in tree && tree[p].File? && tree[p].inode == node.inode :: tree[p] == node
  }

  lemma GrownAgree(before: Tree, after: Tree, parts: Path, next: nat)
    requires Grown(before, after, parts) && Agree(before, next)
    ensures Agree(after, next) && forall node | Fits(before, next, node) :: Fits(after, next, node)
  {
  }

  lemma PlacedAgree(before: Tree, parts: Path, node: Node, next: nat)
    requires parts !in before && Agree(before, next) && Fits(before, next, node)
    ensures Agree(before[parts := node], next)
  {
  }

  lemma NewFileFits(tree: Tree, next: nat, node: Node)
    requires Agree(tree, next) && node.File? && node.inode == next
    ensures Agree(tree, next + 1) && Fits(tree, next + 1, node)
  {
  }

  lemma NamedFits(tree: Tree, next: nat, p: Path)
    requires Agree(tree, next) && p in tree
    ensures Fits(tree, next, tree[p])
  {
  }

  lemma LinkFits(tree: Tree, next: nat, target: seq<string>)
    ensures Fits(tree, next, Link(target))
  {
  }

  lemma ModeAgrees(tree: Tree, next: nat, p: Path, mode: nat)
    requires Agree(tree, next)
    ensures Agree(tree[p := Dir(mode)], next)
  {
  }

  // The stage -----------------------------------------------------------------------------------

  class Stage {
    var tree: Tree
    var nextInode: nat

    constructor ()
      ensures tree == map[[] := Dir(PRIVATE_MODE)] && Agree(tree, nextInode)
    {
      tree, nextInode := map[[] := Dir(PRIVATE_MODE)], 0;
    }

    /** Open the directories along a path, and create those that are missing. */
    method OpenDirectory(parts: Path, create: bool) returns (r: Done)
      requires [] in tree && tree[[]].Dir?
      modifies `tree
      ensures r.Ok? ==> Grown(old(tree), tree, parts) && Free(tree, parts) && tree[parts].Dir?
      ensures !create ==> tree == old(tree)
      ensures Free(old(tree), parts) && (parts in old(tree) ==> old(tree)[parts].Dir?)
              && (parts in old(tree) || create) && (forall p | p < parts :: p in old(tree) || create) ==>
        r.Ok?
    {
      for n := 0 to |parts|
        invariant old(tree).Keys <= tree.Keys && forall p | p in old(tree) :: tree[p] == old(tree)[p]
        invariant forall p | p <= parts && |p| <= n :: p in tree && tree[p].Dir?
        invariant forall p | p in tree && p !in old(tree) :: p <= parts && |p| <= n && tree[p] == Dir(PRIVATE_MODE)
        invariant create || tree == old(tree)
      {
        var part := parts[..n + 1];
        assert forall p | p <= parts && |p| == n + 1 :: p == part;
        assert part < parts || part == parts;
        if part !in tree {
          if !create {
            return Err(SystemError);
          }
          tree := tree[part := Dir(PRIVATE_MODE)];
        } else if !tree[part].Dir? {
          return Err(NotADirectory);
        }
      }
      r := Ok(());
    }

    /** Put a new node under a free name, below directories. */
    method Place(parts: Path, node: Node) returns (r: Done)
      requires [] in tree && tree[[]].Dir? && Agree(tree, nextInode) && Fits(tree, nextInode, node)
      modifies `tree
      ensures r.Ok? ==> Placed(old(tree), tree, parts, node) && Agree(tree, nextInode)
      ensures parts != [] && parts !in old(tree) && Free(old(tree), parts) ==> r.Ok?
    {
      if parts == [] {
        return Err(TargetUnsafe);
      }
      hide Agree, Fits;
      ghost var before := tree;
      var parent := parts[..|parts| - 1];
      FreeAbove(tree, parts);
      var _ :- OpenDirectory(parent, true);
      GrownAgree(before, tree, parent, nextInode);
      if parts in tree {
        return Err(TargetUnsafe);
      }
      PlacedBelow(before, tree, parts, node);
      PlacedAgree(tree, parts, node, nextInode);
      tree := tree[parts := node];
      r := Ok(());
    }

    /** The second scan, member by member in the order of the archive. */
    method UnpackMember(m: Member, index: Index, links: Links, ghost done: set<Path>) returns (r: Done)
      requires Built(tree, index, links, done, {}) && m.path in index && index[m.path] == m && m.path !in done
      requires Agree(tree, nextInode)
      modifies this
      ensures r.Ok? ==> Built(tree, index, links, if IsLink(m.kind) then done else done + {m.path}, {})
      ensures r.Ok? ==> Agree(tree, nextInode)
      ensures RootAndParents(index) ==> r.Ok?
    {
      hide Built, RootAndParents, Holds, Agree, Fits;
      ghost var before := tree;
      RootStays(tree, index, links, done);
      if RootAndParents(index) {
        AboveIsDirectory(tree, index, links, done, {}, m.path);
        if !m.kind.Directory? {
          PlaceIsFree(tree, index, links, done, {}, m.path);
        } else {
          DirectoryStays(tree, index, links, done, m.path);
        }
      }
      match m.kind
      case Directory =>
        var _ :- OpenDirectory(m.path, true);
        GrownAgree(before, tree, m.path, nextInode);
        DirectoryBuilt(before, tree, index, links, done, m.path);
        r := Ok(());
      case Regular =>
        var node := File(nextInode, m.data, m.mode);
        NewFileFits(tree, nextInode, node);
        nextInode := nextInode + 1;
        var _ :- Place(m.path, node);
        RegularHolds(tree, index, links, m.path, node);
        NodeBuilt(before, tree, index, links, done, m.path, node);
        r := Ok(());
      case _ =>
        r := Ok(());
    }

    /** The second scan. */
    method Unpack(members: seq<Member>, index: Index, links: Links) returns (r: Done)
      requires tree == map[[] := Dir(PRIVATE_MODE)] && Indexes(index, members) && Unrepeated(members)
      requires Agree(tree, nextInode)
      modifies this
      ensures r.Ok? ==> Agree(tree, nextInode)
      ensures r.Ok? ==> Built(tree, index, links, Selected(members, |members|, {Directory, Regular}), {})
      ensures RootAndParents(index) ==> r.Ok?
    {
      EmptyBuilt(index, links);
      hide Built, RootAndParents, Indexes, Unrepeated, Agree;
      for i := 0 to |members|
        invariant Built(tree, index, links, Selected(members, i, {Directory, Regular}), {}) && Agree(tree, nextInode)
      {
        SelectedFresh(members, i, {Directory, Regular});
        Indexed(index, members, i);
        ghost var done := Selected(members, i, {Directory, Regular});
        var _ :- UnpackMember(members[i], index, links, done);
        assert done + {} == done;
      }
      r := Ok(());
    }

    method CreateLink(m: Member, index: Index, links: Links, ghost root: string, ghost done: set<Path>)
      returns (r: Done)
      requires Built(tree, index, links, done, {}) && Resolved(root, index, links)
      requires m.path in index && index[m.path] == m && m.path !in done && IsLink(m.kind)
      requires forall p | p in index && index[p].kind.Regular? :: p in done
      requires Agree(tree, nextInode)
      modifies `tree
      ensures r.Ok? ==> Agree(tree, nextInode)
      ensures r.Ok? ==> Built(tree, index, links, done + {m.path}, {})
      ensures RootAndParents(index) ==> r.Ok?
    {
      hide Built, RootAndParents, Holds, Terminates, LinksOf, Agree, Fits;
      ghost var before := tree;
      RootStays(tree, index, links, done);
      if RootAndParents(index) {
        AboveIsDirectory(tree, index, links, done, {}, m.path);
        PlaceIsFree(tree, index, links, done, {}, m.path);
      }
      if m.kind.Symlink? {
        LinkFits(tree, nextInode, m.target);
        var _ :- Place(m.path, Link(m.target));
        SymlinkHolds(tree, index, links, m.path);
        NodeBuilt(before, tree, index, links, done, m.path, Link(m.target));
      } else {
        LinkTerminates(root, index, links, m.path);
        var target := UltimateHardlinkTarget(m.path, index, links, root);
        RegularIsThere(tree, index, links, done, target);
        if target !in tree || tree[target].Dir? {
          return Err(SystemError);
        }
        var node := tree[target];
        NamedFits(tree, nextInode, target);
        var _ :- Place(m.path, node);
        HardlinkHolds(tree, index, links, m.path);
        NodeBuilt(before, tree, index, links, done, m.path, node);
      }
      r := Ok(());
    }

    /** Hardlinks first, then symlinks, when all files are there. */
    method CreateLinks(members: seq<Member>, index: Index, links: Links, ghost root: string) returns (r: Done)
      requires Indexes(index, members) && Unrepeated(members) && Resolved(root, index, links)
      requires Built(tree, index, links, Selected(members, |members|, {Directory, Regular}), {})
      requires Agree(tree, nextInode)
      modifies `tree
      ensures r.Ok? ==> Agree(tree, nextInode)
      ensures r.Ok? ==> Built(tree, index, links, index.Keys, {})
      ensures RootAndParents(index) ==> r.Ok?
    {
      hide Built, RootAndParents, Resolved, Selected, Agree;
      ghost var files := Selected(members, |members|, {Directory, Regular});
      ghost var hard := Selected(members, |members|, {Hardlink});
      SelectedAll(index, members, {Directory, Regular});
      SelectedAll(index, members, {Hardlink});
      SelectedAll(index, members, {Symlink});
      var _ :- CreateLinksOf(Hardlink, members, index, links, root, files);
      var _ :- CreateLinksOf(Symlink, members, index, links, root, files + hard);
      assert files + hard + Selected(members, |members|, {Symlink}) == index.Keys;
      r := Ok(());
    }

    method CreateLinksOf(kind: Kind, members: seq<Member>, index: Index, links: Links,
                         ghost root: string, ghost start: set<Path>) returns (r: Done)
      requires Indexes(index, members) && Unrepeated(members) && Resolved(root, index, links) && IsLink(kind)
      requires Built(tree, index, links, start, {})
      requires forall p | p in index && index[p].kind.Regular? :: p in start
      requires forall p | p in index && index[p].kind == kind :: p !in start
      requires Agree(tree, nextInode)
      modifies `tree
      ensures r.Ok? ==> Agree(tree, nextInode)
      ensures r.Ok? ==> Built(tree, index, links, start + Selected(members, |members|, {kind}), {})
      ensures RootAndParents(index) ==> r.Ok?
    {
      hide Built, RootAndParents, Resolved, Indexes, Unrepeated, Agree;
      assert start + {} == start;
      for i := 0 to |members|
        invariant Built(tree, index, links, start + Selected(members, i, {kind}), {}) && Agree(tree, nextInode)
      {
        SelectedFresh(members, i, {kind});
        Indexed(index, members, i);
        ghost var done := start + Selected(members, i, {kind});
        if members[i].kind == kind {
          var _ :- CreateLink(members[i], index, links, root, done);
          assert start + Selected(members, i + 1, {kind}) == done + {members[i].path};
        } else {
          assert start + Selected(members, i + 1, {kind}) == done;
        }
      }
      r := Ok(());
    }

    /** Give the directories their own modes, the deepest first. */
    method ApplyModes(members: seq<Member>, index: Index, links: Links, ghost root: string) returns (r: Done)
      requires Indexes(index, members) && Resolved(root, index, links)
      requires Built(tree, index, links, index.Keys, {}) && Agree(tree, nextInode)
      modifies `tree
      ensures r.Ok? ==> Agree(tree, nextInode)
      ensures r.Ok? ==> Matches(tree, index, links)
      ensures RootAndParents(index) ==> r.Ok?
    {
      hide Built, Matches, Resolved, RootAndParents, Indexes, Agree;
      var deepest := Deepest(members);
      var depth := deepest + 1;
      ghost var settled: set<Path> := {};
      while depth > 0
        invariant Built(tree, index, links, index.Keys, settled) && Agree(tree, nextInode)
        invariant SettledFrom(members, depth, settled)
      {
        depth := depth - 1;
        r, settled := ApplyModesAt(depth, members, index, links, root, settled);
        if r.Err? {
          return;
        }
      }
      SettledAll(index, members, settled);
      AllSettled(tree, index, links, settled);
      r := Ok(());
    }

    method ApplyModesAt(depth: nat, members: seq<Member>, index: Index, links: Links,
                        ghost root: string, ghost before: set<Path>) returns (r: Done, ghost settled: set<Path>)
      requires Indexes(index, members) && Resolved(root, index, links)
      requires Built(tree, index, links, index.Keys, before) && Agree(tree, nextInode)
      modifies `tree
      ensures r.Ok? ==> Agree(tree, nextInode)
      ensures r.Ok? ==> Built(tree, index, links, index.Keys, settled)
      ensures r.Ok? && SettledFrom(members, depth + 1, before) ==> SettledFrom(members, depth, settled)
      ensures RootAndParents(index) ==> r.Ok?
    {
      hide Built, Resolved, Indexes, RootAndParents, Agree;
      settled := before;
      for i := 0 to |members|
        invariant Built(tree, index, links, index.Keys, settled) && before <= settled && Agree(tree, nextInode)
        invariant forall j | 0 <= j < i && members[j].kind.Directory? && |members[j].path| == depth ::
          members[j].path in settled
      {
        var m := members[i];
        Indexed(index, members, i);
        if m.kind.Directory? && |m.path| == depth {
          ChmodReady(tree, index, links, settled, m.path);
          r := OpenDirectory(m.path, false);
          if r.Err? {
            return;
          }
          ModeBuilt(tree, index, links, root, settled, m.path);
          ModeAgrees(tree, nextInode, m.path, m.mode);
          tree := tree[m.path := Dir(m.mode)];
          settled := settled + {m.path};
        }
      }
      r := Ok(());
    }
  }

  method Deepest(members: seq<Member>) returns (deepest: nat)
    ensures SettledFrom(members, deepest + 1, {})
  {
    deepest := 0;
    for i := 0 to |members|
      invariant forall j | 0 <= j < i :: |members[j].path| <= deepest
    {
      deepest := if deepest < |members[i].path| then |members[i].path| else deepest;
    }
  }

  /** The directories at a depth or below it have their modes. */
  ghost predicate SettledFrom(members: seq<Member>, depth: nat, settled: set<Path>) {
    forall i | 0 <= i < |members| && members[i].kind.Directory? && depth <= |members[i].path| ::
      members[i].path in settled
  }

  lemma SettledAll(index: Index, members: seq<Member>, settled: set<Path>)
    requires Indexes(index, members) && SettledFrom(members, 0, settled)
    ensures forall p | p in index && index[p].kind.Directory? :: p in settled
  {
    forall p | p in index && index[p].kind.Directory? ensures p in settled {
      var i :| 0 <= i < |members| && members[i] == index[p];
    }
  }

  /** The paths of the first n members that are of one of these kinds. */
  ghost function Selected(members: seq<Member>, n: nat, kinds: set<Kind>): set<Path>
    requires n <= |members|
  {
    if n == 0 then {}
    else Selected(members, n - 1, kinds) + if members[n - 1].kind in kinds then {members[n - 1].path} else {}
  }

  lemma {:induction false} SelectedHas(members: seq<Member>, n: nat, kinds: set<Kind>, p: Path)
    requires n <= |members|
    ensures p in Selected(members, n, kinds) <==>
      exists i :: 0 <= i < n && members[i].path == p && members[i].kind in kinds
    decreases n
  {
    if n > 0 {
      SelectedHas(members, n - 1, kinds, p);
    }
  }

  lemma SelectedFresh(members: seq<Member>, i: nat, kinds: set<Kind>)
    requires Unrepeated(members) && i < |members|
    ensures members[i].path !in Selected(members, i, kinds)
  {
    SelectedHas(members, i, kinds, members[i].path);
  }

  lemma SelectedAll(index: Index, members: seq<Member>, kinds: set<Kind>)
    requires Indexes(index, members)
    ensures forall p :: p in Selected(members, |members|, kinds) <==> p in index && index[p].kind in kinds
  {
    forall p ensures p in Selected(members, |members|, kinds) <==> p in index && index[p].kind in kinds {
      SelectedHas(members, |members|, kinds, p);
      if p in index {
        var i :| 0 <= i < |members| && members[i] == index[p];
      }
    }
  }

  lemma Indexed(index: Index, members: seq<Member>, i: nat)
    requires Indexes(index, members) && i < |members|
    ensures members[i].path in index && index[members[i].path] == members[i]
  {
    assert members[i] in members;
  }

  lemma EmptyBuilt(index: Index, links: Links)
    ensures Built(map[[] := Dir(PRIVATE_MODE)], index, links, {}, {})
  {
  }

  /** No path is declared twice. */
  ghost predicate Unrepeated(members: seq<Member>) {
    forall i, j | 0 <= i < j < |members| :: members[i].path != members[j].path
  }

  lemma RootStays(tree: Tree, index: Index, links: Links, done: set<Path>)
    requires Built(tree, index, links, done, {})
    ensures [] in tree && tree[[]].Dir?
  {
  }

  lemma SymlinkHolds(tree: Tree, index: Index, links: Links, p: Path)
    requires p in index && index[p].kind.Symlink? && p in tree && tree[p] == Link(index[p].target)
    ensures Holds(tree, index, links, p)
  {
  }

  lemma HardlinkHolds(tree: Tree, index: Index, links: Links, p: Path)
    requires IsHardlink(index, p) && Terminates(links, p) && p in tree
    requires HardlinkTarget(index, links, p) in tree && tree[p] == tree[HardlinkTarget(index, links, p)]
    ensures Holds(tree, index, links, p)
  {
  }

  lemma LinkTerminates(root: string, index: Index, links: Links, p: Path)
    requires Resolved(root, index, links) && p in index && IsLink(index[p].kind)
    ensures p in links && Terminates(links, p)
  {
  }

  lemma RegularIsThere(tree: Tree, index: Index, links: Links, done: set<Path>, p: Path)
    requires Built(tree, index, links, done, {}) && p in done && index[p].kind.Regular?
    ensures p in tree && tree[p].File?
  {
  }

  lemma ChmodReady(tree: Tree, index: Index, links: Links, settled: set<Path>, p: Path)
    requires Built(tree, index, links, index.Keys, settled) && p in index && index[p].kind.Directory?
    ensures [] in tree && tree[[]].Dir? && p in tree && tree[p].Dir?
    ensures (forall q | q < p :: q in tree) && (RootAndParents(index) ==> Free(tree, p))
  {
    assert Holds(tree, index, links, p);
    forall q | q < p ensures q in tree {
      assert Covered(index.Keys, q);
    }
  }

  lemma ModeHolds(tree: Tree, index: Index, links: Links, root: string, p: Path, q: Path)
    requires Resolved(root, index, links) && p in index && index[p].kind.Directory? && p in tree
    requires q in index && (index[q].kind.Hardlink? ==> Terminates(links, q)) && Holds(tree, index, links, q)
    ensures Holds(tree[p := Dir(index[p].mode)], index, links, q)
  {
    if index[q].kind.Hardlink? {
      HardlinkTargetIsRegular(root, index, links, q);
    }
  }

  lemma ModeBuilt(tree: Tree, index: Index, links: Links, root: string, settled: set<Path>, p: Path)
    requires Resolved(root, index, links) && Built(tree, index, links, index.Keys, settled)
    requires p in index && index[p].kind.Directory? && p in tree
    ensures Built(tree[p := Dir(index[p].mode)], index, links, index.Keys, settled + {p})
  {
    hide Holds, Resolved, Covered;
    forall q | q in index ensures Holds(tree[p := Dir(index[p].mode)], index, links, q) {
      ModeHolds(tree, index, links, root, p, q);
    }
  }

  lemma AllSettled(tree: Tree, index: Index, links: Links, settled: set<Path>)
    requires Built(tree, index, links, index.Keys, settled)
    requires forall p | p in index && index[p].kind.Directory? :: p in settled
    ensures Matches(tree, index, links)
  {
  }

  lemma DirectoryStays(tree: Tree, index: Index, links: Links, done: set<Path>, p: Path)
    requires Built(tree, index, links, done, {}) && RootAndParents(index)
    requires p in index && p !in done && index[p].kind.Directory?
    ensures p in tree ==> tree[p].Dir?
  {
  }

  lemma RegularHolds(tree: Tree, index: Index, links: Links, p: Path, node: Node)
    requires p in index && index[p].kind.Regular? && p in tree && tree[p] == node
    requires node.File? && node.data == index[p].data && node.mode == index[p].mode
    ensures Holds(tree, index, links, p)
  {
  }
}

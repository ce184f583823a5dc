/** The checks on all members of an archive, before anything is extracted. */
module ArchiveGraph {
  import opened Outcomes
  import opened LinkGraph

  type Index = map<Path, Member>

  /** Members by path; what is declared once is all that is declared. */
  ghost predicate Indexes(index: Index, members: seq<Member>) {
    && (forall m | m in members :: m.path in index && index[m.path] == m)
    && (forall p | p in index :: index[p].path == p && index[p] in members)
  }

  /** No member is below something that is declared and is not a directory. */
  ghost predicate ParentsAreDirectories(index: Index) {
    forall p, q | p in index && q in index && q < p :: index[q].kind.Directory?
  }

  ghost predicate LinkResolves(root: string, index: Index, m: Member) {
    && ResolvedLink(root, m).Ok?
    && ResolvedLink(root, m).value in index
    && (m.kind.Hardlink? ==> var kind := index[ResolvedLink(root, m).value].kind; kind.Regular? || kind.Hardlink?)
  }

  /** The links of an archive, once all of them resolve. */
  ghost predicate LinksOf(root: string, index: Index, links: Links) {
    && (forall p | p in index && IsLink(index[p].kind) ::
          p in links && LinkResolves(root, index, index[p]) && links[p] == ResolvedLink(root, index[p]).value)
    && (forall p | p in links :: p in index && IsLink(index[p].kind))
  }

  /** The archives that the graph check accepts, with their links. */
  ghost predicate SoundGraph(root: string, index: Index, allowLinks: bool, links: Links) {
    && ([] in index ==> index[[]].kind.Directory?)
    && ParentsAreDirectories(index)
    && (allowLinks || forall p | p in index :: !IsLink(index[p].kind))
    && LinksOf(root, index, links)
    && !Cyclic(links)
  }

  /** What each refusal of the graph says of the members. */
  ghost predicate GraphRefuses(root: string, index: Index, allowLinks: bool, error: GraphError) {
    match error
    case RootNotDirectory => [] in index && !index[[]].kind.Directory?
    case ParentNotDirectory => !ParentsAreDirectories(index)
    case LinksForbidden => !allowLinks && exists p :: p in index && IsLink(index[p].kind)
    case TargetUndeclared => exists p ::
      p in index && IsLink(index[p].kind) && ResolvedLink(root, index[p]).Ok? && ResolvedLink(root, index[p]).value !in index
    case TargetNotRegular => exists p ::
      && p in index && index[p].kind.Hardlink?
      && ResolvedLink(root, index[p]).Ok? && ResolvedLink(root, index[p]).value in index
      && var kind := index[ResolvedLink(root, index[p]).value].kind; kind.Directory? || kind.Symlink?
    case LinkCycle => exists links :: LinksOf(root, index, links) && Cyclic(links)
    case _ => exists p :: p in index && IsLink(index[p].kind) && ResolvedLink(root, index[p]) == Err(error)
  }

  method CheckParents(index: Index, m: Member) returns (ok: bool)
    ensures ok <==> forall q | q in index && q < m.path && q != [] :: index[q].kind.Directory?
  {
    var n := |m.path|;
    while n > 1
      invariant 0 <= n <= |m.path|
      invariant forall q | q in index && n <= |q| && q < m.path && q != [] :: index[q].kind.Directory?
    {
      n := n - 1;
      var parent := m.path[..n];
      if parent in index && !index[parent].kind.Directory? {
        return false;
      }
      forall q | q in index && n <= |q| && q < m.path && q != [] ensures index[q].kind.Directory? {
        if |q| == n {
          assert q == parent;
        }
      }
    }
    ok := true;
  }

  method ResolveLinks(root: string, index: Index, members: seq<Member>, allowLinks: bool)
    returns (r: Result<Links, GraphError>)
    requires Indexes(index, members)
    ensures r.Ok? <==>
      && (allowLinks || forall p | p in index :: !IsLink(index[p].kind))
      && (forall p | p in index && IsLink(index[p].kind) :: LinkResolves(root, index, index[p]))
    ensures r.Ok? ==> LinksOf(root, index, r.value)
    ensures r.Err? ==> !r.error.LinkCycle? && GraphRefuses(root, index, allowLinks, r.error)
  {
    var links: Links := map[];
    for i := 0 to |members|
      invariant forall p | p in links :: p in index && IsLink(index[p].kind)
      invariant forall j | 0 <= j < i && IsLink(members[j].kind) ::
        && allowLinks && LinkResolves(root, index, members[j])
        && members[j].path in links && links[members[j].path] == ResolvedLink(root, members[j]).value
    {
      var m := members[i];
      if IsLink(m.kind) {
        if !allowLinks {
          return Err(LinksForbidden);
        }
        var target :- ResolvedLink(root, m);
        if target !in index {
          return Err(TargetUndeclared);
        }
        if m.kind.Hardlink? && !(index[target].kind.Regular? || index[target].kind.Hardlink?) {
          return Err(TargetNotRegular);
        }
        links := links[m.path := target];
      }
    }
    forall p | p in index && IsLink(index[p].kind)
      ensures allowLinks && p in links && LinkResolves(root, index, index[p]) && links[p] == ResolvedLink(root, index[p]).value
    {
      var j :| 0 <= j < |members| && members[j] == index[p];
    }
    r := Ok(links);
  }

  /** Everything about the graph that can be wrong. */
  method ValidateGraph(root: string, members: seq<Member>, index: Index, allowLinks: bool)
    returns (r: Result<Links, GraphError>)
    requires Indexes(index, members)
    ensures r.Ok? <==> exists links :: SoundGraph(root, index, allowLinks, links)
    ensures r.Ok? ==> SoundGraph(root, index, allowLinks, r.value)
    ensures r.Ok? ==> forall p | p in r.value :: Terminates(r.value, p)
    ensures r.Err? ==> GraphRefuses(root, index, allowLinks, r.error)
  {
    if [] in index && !index[[]].kind.Directory? {
      return Err(RootNotDirectory);
    }
    for i := 0 to |members|
      invariant forall j | 0 <= j < i ::
        forall q | q in index && q < members[j].path && q != [] :: index[q].kind.Directory?
    {
      var ok := CheckParents(index, members[i]);
      if !ok {
        return Err(ParentNotDirectory);
      }
    }
    assert ParentsAreDirectories(index) by {
      forall p, q | p in index && q in index && q < p ensures index[q].kind.Directory? {
        var j :| 0 <= j < |members| && members[j] == index[p];
      }
    }
    var resolved := ResolveLinks(root, index, members, allowLinks);
    if resolved.Err? {
      return Err(resolved.error);
    }
    forall links | SoundGraph(root, index, allowLinks, links) ensures links == resolved.value {
      LinksAreUnique(root, index, resolved.value);
    }
    var search := new Search(resolved.value);
    var acyclic := search.Run();
    if acyclic {
      assert SoundGraph(root, index, allowLinks, resolved.value);
    }
    r := if acyclic then Ok(resolved.value) else Err(LinkCycle);
  }

  lemma LinksAreUnique(root: string, index: Index, links: Links)
    requires LinksOf(root, index, links)
    ensures forall other | LinksOf(root, index, other) :: other == links
  {
    forall other | LinksOf(root, index, other) ensures other == links {
      assert other.Keys == links.Keys;
    }
  }

  // Hardlinks ---------------------------------------------------------------------------------

  ghost predicate Resolved(root: string, index: Index, links: Links) {
    LinksOf(root, index, links) && forall p | p in links :: Terminates(links, p)
  }

  ghost predicate IsHardlink(index: Index, p: Path) {
    p in index && index[p].kind.Hardlink?
  }

  /** Where a chain of hardlinks ends. */
  ghost function Ultimate(index: Index, links: Links, p: Path, n: nat): Path
    requires Ends(links, p, n)
    decreases n
  {
    if n > 0 && IsHardlink(index, p) then Ultimate(index, links, links[p], n - 1) else p
  }

  ghost function HardlinkTarget(index: Index, links: Links, p: Path): (target: Path)
    requires Terminates(links, p)
    ensures forall n: nat | Ends(links, p, n) :: target == Ultimate(index, links, p, n)
  {
    var n: nat :| Ends(links, p, n);
    forall m: nat | Ends(links, p, m) ensures m == n {
      EndsOnce(links, p, m, n);
    }
    Ultimate(index, links, p, n)
  }

  lemma {:induction false} UltimateIsRegular(root: string, index: Index, links: Links, p: Path, n: nat)
    requires Resolved(root, index, links) && Ends(links, p, n)
    requires p in index && (index[p].kind.Regular? || index[p].kind.Hardlink?)
    ensures Ultimate(index, links, p, n) in index && index[Ultimate(index, links, p, n)].kind.Regular?
    decreases n
  {
    if IsHardlink(index, p) {
      UltimateIsRegular(root, index, links, links[p], n - 1);
    }
  }

  /** Every hardlink leads to the regular file whose inode it will share. */
  lemma HardlinkTargetIsRegular(root: string, index: Index, links: Links, p: Path)
    requires Resolved(root, index, links) && IsHardlink(index, p)
    ensures HardlinkTarget(index, links, p) in index && index[HardlinkTarget(index, links, p)].kind.Regular?
  {
    var n: nat :| Ends(links, p, n);
    UltimateIsRegular(root, index, links, p, n);
  }

  /** The end of a chain of hardlinks. */
  method UltimateHardlinkTarget(path: Path, index: Index, links: Links, ghost root: string)
    returns (target: Path)
    requires Resolved(root, index, links) && IsHardlink(index, path)
    ensures target == HardlinkTarget(index, links, path)
    ensures target in index && index[target].kind.Regular?
  {
    target := links[path];
    ghost var steps: nat :| Ends(links, path, steps);
    ghost var n: nat := steps - 1;
    while index[target].kind.Hardlink?
      invariant target in index && (index[target].kind.Regular? || index[target].kind.Hardlink?)
      invariant Ends(links, target, n)
      invariant Ultimate(index, links, path, steps) == Ultimate(index, links, target, n)
      decreases n
    {
      target := links[target];
      n := n - 1;
    }
  }
}

/** An archive from its first scan to the verified tree. */
module Extraction {
  import opened Outcomes
  import opened LinkGraph
  import opened ArchiveGraph
  import opened ExtractedTree

  datatype Policy = Policy(root: string, maxMembers: nat, maxTotal: nat, allowLinks: bool)

  datatype ScanError =
    | TooManyMembers
    | DuplicateMember
    | UnsafeName
    | OutsideRoot
    | LinkForbidden
    | UnsafeMode
    | NonRegularData
    | TooLarge
    | NoMembers

  datatype ArchiveError =
    | ScanFailed(scan: ScanError)
    | GraphFailed(graph: GraphError)
    | ExtractFailed(extract: ExtractError)
    | ArchiveChanged

  // The first scan --------------------------------------------------------------------------------

  /** A name below the expected root, as it would be spelled again. */
  predicate SafeName(root: string, name: seq<string>) {
    && name != [] && name[0] == root
    && Normalize([], name) == name
  }

  /** Such a name begins with the root, and has no empty part, no dot and no way up. */
  lemma SafeNameMeans(root: string, name: seq<string>)
    requires Plain([root])
    ensures SafeName(root, name) <==> name != [] && name[0] == root && Plain(name)
  {
    hide Normalize;
    NormalFixed(name);
    assert [root][0] == root;
    if name != [] && name[0] == root && Clean(name) {
      forall i | 0 <= i < |name| ensures name[i] != ".." {
        CleanStaysBelow(name, i);
      }
    }
  }

  function Total(members: seq<Member>, n: nat): (total: nat)
    requires n <= |members|
  {
    if n == 0 then 0
    else Total(members, n - 1) + if members[n - 1].kind.Regular? then |members[n - 1].data| else 0
  }

  lemma {:induction false} TotalGrows(members: seq<Member>, i: nat, n: nat)
    requires i <= n <= |members|
    ensures Total(members, i) <= Total(members, n)
    decreases n - i
  {
    if i < n {
      TotalGrows(members, i + 1, n);
    }
  }

  predicate SafeEntry(policy: Policy, entry: Member) {
    && SafeName(policy.root, entry.path)
    && (policy.allowLinks || !IsLink(entry.kind))
    && entry.mode <= 0x1FF // 0o777
    && (entry.kind.Regular? || entry.data == [])
  }

  /** The archives that the scan accepts, but for their graph. */
  ghost predicate Scannable(policy: Policy, entries: seq<Member>) {
    && 0 < |entries| <= policy.maxMembers
    && (forall i | 0 <= i < |entries| :: SafeEntry(policy, entries[i]))
    && Unrepeated(entries)
    && Total(entries, |entries|) <= policy.maxTotal
  }

  /** What each refusal of the scan says of the entries. */
  ghost predicate ScanRefuses(policy: Policy, entries: seq<Member>, error: ScanError) {
    match error
    case TooManyMembers => |entries| > policy.maxMembers
    case DuplicateMember => !Unrepeated(entries)
    case TooLarge => Total(entries, |entries|) > policy.maxTotal
    case NoMembers => entries == []
    case _ => exists i :: 0 <= i < |entries| && EntryRefused(policy, entries[i], error)
  }

  ghost predicate EntryRefused(policy: Policy, entry: Member, error: ScanError) {
    match error
    case UnsafeName => entry.path == [] || !Clean(entry.path)
    case OutsideRoot => entry.path != [] && Clean(entry.path) && entry.path[0] != policy.root
    case LinkForbidden => !policy.allowLinks && IsLink(entry.kind)
    case UnsafeMode => entry.mode > 0x1FF // 0o777
    case NonRegularData => !entry.kind.Regular? && entry.data != []
    case _ => false
  }

  method CheckEntry(policy: Policy, entry: Member) returns (r: Result<(), ScanError>)
    ensures r.Ok? <==> SafeEntry(policy, entry)
    ensures r.Err? ==> EntryRefused(policy, entry, r.error)
  {
    hide Normalize, Clean;
    NormalFixed(entry.path);
    if !SafeName(policy.root, entry.path) {
      return Err(if Normalize([], entry.path) == entry.path && entry.path != [] then OutsideRoot else UnsafeName);
    }
    if !policy.allowLinks && IsLink(entry.kind) {
      return Err(LinkForbidden);
    }
    if entry.mode > 0x1FF {
      return Err(UnsafeMode);
    }
    if !entry.kind.Regular? && entry.data != [] {
      return Err(NonRegularData);
    }
    r := Ok(());
  }

  /** A member by its path below the root. */
  function Below(entry: Member): Member
    requires entry.path != []
  {
    entry.(path := entry.path[1..])
  }

  /** The members of an archive are its entries, below the root, in their order. */
  ghost predicate MembersOf(root: string, entries: seq<Member>, members: seq<Member>) {
    && |members| == |entries|
    && forall i | 0 <= i < |entries| ::
         entries[i].path == [root] + members[i].path && members[i] == entries[i].(path := members[i].path)
  }

  method Scan(policy: Policy, entries: seq<Member>) returns (r: Result<(seq<Member>, Index), ScanError>)
    ensures r.Ok? <==> Scannable(policy, entries)
    ensures r.Err? ==> ScanRefuses(policy, entries, r.error)
    ensures r.Ok? ==> MembersOf(policy.root, entries, r.value.0)
    ensures r.Ok? && Plain([policy.root]) ==> PlainPaths(r.value.0)
    ensures r.Ok? ==> Unrepeated(r.value.0) && Indexes(r.value.1, r.value.0)
  {
    hide Normalize, Total, EntryRefused, Plain;
    var members: seq<Member> := [];
    var index: Index := map[];
    var seen: set<seq<string>> := {};
    var total := 0;
    EmptyTotal(entries);
    for i := 0 to |entries|
      invariant i <= policy.maxMembers && total == Total(entries, i) && total <= policy.maxTotal
      invariant MembersOf(policy.root, entries[..i], members)
      invariant forall j | 0 <= j < i :: SafeEntry(policy, entries[j]) && entries[j].path in seen
      invariant forall p | p in seen :: exists j :: 0 <= j < i && entries[j].path == p
      invariant Unrepeated(entries[..i]) && Unrepeated(members)
      invariant Indexes(index, members)
    {
      hide Indexes, Unrepeated, MembersOf;
      var entry := entries[i];
      if |members| >= policy.maxMembers {
        TooMany(policy, entries, i, members);
        return Err(TooManyMembers);
      }
      if entry.path in seen {
        Repeated(policy, entries, i);
        return Err(DuplicateMember);
      }
      var checked := CheckEntry(policy, entry);
      if checked.Err? {
        Unsafe(policy, entries, i, checked.error);
        return Err(checked.error);
      }
      OneMore(policy.root, entries, i, members, index);
      total := total + if entry.kind.Regular? then |entry.data| else 0;
      TotalStep(entries, i);
      if total > policy.maxTotal {
        TotalGrows(entries, i + 1, |entries|);
        return Err(TooLarge);
      }
      members := members + [Below(entry)];
      index := index[Below(entry).path := Below(entry)];
      seen := seen + {entry.path};
    }
    assert entries[..|entries|] == entries;
    if |members| == 0 {
      return Err(NoMembers);
    }
    if Plain([policy.root]) {
      MembersPlain(policy, entries, members);
    }
    r := Ok((members, index));
  }

  /** No path has an empty part, a dot or a way up. */
  ghost predicate PlainPaths(members: seq<Member>) {
    forall i | 0 <= i < |members| :: Plain(members[i].path)
  }

  lemma MembersPlain(policy: Policy, entries: seq<Member>, members: seq<Member>)
    requires Plain([policy.root]) && MembersOf(policy.root, entries, members)
    requires forall i | 0 <= i < |entries| :: SafeEntry(policy, entries[i])
    ensures PlainPaths(members)
  {
    hide Plain, SafeName;
    forall i | 0 <= i < |members| ensures Plain(members[i].path) {
      SafeNameMeans(policy.root, entries[i].path);
      PlainBoth([policy.root], members[i].path);
    }
  }

  lemma EmptyTotal(entries: seq<Member>)
    ensures Total(entries, 0) == 0
  {
  }

  lemma TotalStep(entries: seq<Member>, i: nat)
    requires i < |entries|
    ensures Total(entries, i + 1) == Total(entries, i) + if entries[i].kind.Regular? then |entries[i].data| else 0
  {
  }

  lemma TooMany(policy: Policy, entries: seq<Member>, i: nat, members: seq<Member>)
    requires i < |entries| && MembersOf(policy.root, entries[..i], members) && |members| >= policy.maxMembers
    ensures !Scannable(policy, entries)
  {
  }

  lemma Repeated(policy: Policy, entries: seq<Member>, i: nat)
    requires i < |entries| && exists j :: 0 <= j < i && entries[j].path == entries[i].path
    ensures !Scannable(policy, entries)
  {
  }

  lemma Unsafe(policy: Policy, entries: seq<Member>, i: nat, error: ScanError)
    requires i < |entries| && !SafeEntry(policy, entries[i]) && EntryRefused(policy, entries[i], error)
    ensures !Scannable(policy, entries) && ScanRefuses(policy, entries, error)
  {
  }

  lemma OneMore(root: string, entries: seq<Member>, i: nat, members: seq<Member>, index: Index)
    requires i < |entries| && MembersOf(root, entries[..i], members) && Unrepeated(entries[..i])
    requires Unrepeated(members) && Indexes(index, members)
    requires entries[i].path != [] && entries[i].path[0] == root
    requires forall j | 0 <= j < i :: entries[j].path != entries[i].path
    ensures var more := members + [Below(entries[i])];
      MembersOf(root, entries[..i + 1], more) && Unrepeated(entries[..i + 1]) && Unrepeated(more)
      && Indexes(index[Below(entries[i]).path := Below(entries[i])], more)
  {
    var m := Below(entries[i]);
    var more := members + [m];
    assert entries[..i + 1] == entries[..i] + [entries[i]];
    assert entries[i].path == [root] + m.path;
    assert forall j | 0 <= j < i :: entries[..i][j] == entries[j];
    assert m.path !in index;
    assert forall k | k in more :: k in members || k == m;
    assert forall k | k in members :: k in more;
  }

  // The check of the extracted tree -----------------------------------------------------------------

  /** Members below the root, and the directories that nothing but they need. */
  method ExpectedPaths(members: seq<Member>, index: Index)
    returns (expected: Index, implicit: set<Path>)
    requires Indexes(index, members)
    ensures forall p :: p in expected <==> p in index && p != []
    ensures forall p | p in expected :: expected[p] == index[p]
    ensures forall p :: p in implicit <==> p != [] && p !in index && Covered(index.Keys, p)
  {
    expected, implicit := map[], {};
    for i := 0 to |members|
      invariant forall p | p in expected :: p != [] && p in index && expected[p] == index[p]
      invariant forall j | 0 <= j < i && members[j].path != [] :: members[j].path in expected
      invariant forall p | p in implicit :: p != [] && Covered(index.Keys, p)
      invariant forall j, p | 0 <= j < i && p != [] && p < members[j].path :: p in implicit
    {
      var path := members[i].path;
      Indexed(index, members, i);
      if path != [] {
        expected := expected[path := members[i]];
        implicit := implicit + Above(path);
      }
    }
    hide Indexes;
    forall p | p in index && p != [] ensures p in expected {
      var j := Declared(index, members, p);
    }
    forall p | p != [] && p !in index && Covered(index.Keys, p) ensures p in implicit {
      var q :| q in index && p <= q;
      var j := Declared(index, members, q);
      ProperPrefix(p, members[j].path);
    }
    implicit := implicit - expected.Keys;
  }

  lemma ProperPrefix(p: Path, q: Path)
    requires p <= q && p != q
    ensures p < q
  {
  }

  lemma Declared(index: Index, members: seq<Member>, p: Path) returns (j: nat)
    requires Indexes(index, members) && p in index
    ensures index[p].path == p && j < |members| && members[j].path == p
  {
    j :| 0 <= j < |members| && members[j] == index[p];
  }

  /** The directories above a path, the root left out. */
  function Above(path: Path): (above: set<Path>)
    requires path != []
    ensures forall p :: p in above <==> p != [] && p < path
  {
    assert forall p | p != [] && p < path :: 0 < |p| < |path| && path[..|p|] == p;
    set n | 0 < n < |path| :: path[..n]
  }

  predicate CheckMember(tree: Tree, m: Member, target: Path)
    requires m.path in tree
  {
    var node := tree[m.path];
    match m.kind
    case Directory => node == Dir(m.mode)
    case Regular => node.File? && node.mode == m.mode && node.data == m.data
    case Symlink => node == Link(m.target)
    case Hardlink => node.File? && target in tree && tree[target].File? && node.inode == tree[target].inode
  }

  /** Everything below the root of an extracted tree, and the root itself, is as declared. */
  method VerifyTree(tree: Tree, members: seq<Member>, index: Index, links: Links,
                    ghost root: string, ghost next: nat) returns (ok: bool)
    requires [] in tree && Agree(tree, next)
    requires Indexes(index, members) && Resolved(root, index, links) && ([] in index ==> index[[]].kind.Directory?)
    ensures ok <==> Matches(tree, index, links)
  {
    hide Agree, Indexes, Resolved, Terminates, LinksOf, Covered;
    if tree[[]] != Dir(if [] in index then index[[]].mode else PRIVATE_MODE) {
      WrongRoot(tree, index, links);
      return false;
    }
    var expected, implicit := ExpectedPaths(members, index);
    if tree.Keys - {[]} != expected.Keys + implicit {
      WrongPaths(tree, index, links, expected, implicit);
      return false;
    }
    var left := implicit;
    while left != {}
      invariant left <= implicit && forall p | p in implicit - left :: tree[p] == Dir(PRIVATE_MODE)
      decreases left
    {
      var p :| p in left;
      if tree[p] != Dir(PRIVATE_MODE) {
        WrongDirectory(tree, index, links, p);
        return false;
      }
      left := left - {p};
    }
    var rest := expected.Keys;
    while rest != {}
      invariant rest <= expected.Keys
      invariant forall p | p in expected.Keys - rest :: MemberHolds(tree, index, links, root, p)
      decreases rest
    {
      hide MemberHolds;
      var p :| p in rest;
      var target := p;
      if index[p].kind.Hardlink? {
        target := UltimateHardlinkTarget(p, index, links, root);
      }
      var _ := Declared(index, members, p);
      CheckMeans(tree, index, links, root, next, p, target);
      if !CheckMember(tree, index[p], target) {
        WrongMember(tree, index, links, root, p);
        return false;
      }
      rest := rest - {p};
    }
    AllRight(tree, index, links, root, expected, implicit);
    ok := true;
  }

  ghost predicate MemberHolds(tree: Tree, index: Index, links: Links, root: string, p: Path) {
    && p in index && (index[p].kind.Hardlink? ==> Terminates(links, p))
    && Holds(tree, index, links, p)
    && (index[p].kind.Directory? ==> tree[p] == Dir(index[p].mode))
    && (index[p].kind.Hardlink? ==> tree[p].File?)
  }

  lemma WrongRoot(tree: Tree, index: Index, links: Links)
    requires [] in tree && ([] in index ==> index[[]].kind.Directory?)
    requires tree[[]] != Dir(if [] in index then index[[]].mode else PRIVATE_MODE)
    ensures !Matches(tree, index, links)
  {
  }

  lemma WrongPaths(tree: Tree, index: Index, links: Links, expected: Index, implicit: set<Path>)
    requires [] in tree && tree.Keys - {[]} != expected.Keys + implicit
    requires forall p :: p in expected <==> p in index && p != []
    requires forall p :: p in implicit <==> p != [] && p !in index && Covered(index.Keys, p)
    ensures !Matches(tree, index, links)
  {
    if Matches(tree, index, links) {
      forall p ensures p in tree.Keys - {[]} <==> p in expected.Keys + implicit {
        if p in expected {
          assert Covered(index.Keys, p);
        }
      }
    }
  }

  lemma WrongDirectory(tree: Tree, index: Index, links: Links, p: Path)
    requires p in tree && p !in index && tree[p] != Dir(PRIVATE_MODE)
    ensures !Matches(tree, index, links)
  {
  }

  lemma WrongMember(tree: Tree, index: Index, links: Links, root: string, p: Path)
    requires Resolved(root, index, links)
    requires p in index && p in tree && !MemberHolds(tree, index, links, root, p)
    ensures !Matches(tree, index, links)
  {
    hide LinksOf, Covered;
    if Matches(tree, index, links) {
      assert Holds(tree, index, links, p);
      if index[p].kind.Hardlink? {
        HardlinkTargetIsRegular(root, index, links, p);
      }
    }
  }

  lemma CheckMeans(tree: Tree, index: Index, links: Links, root: string, next: nat, p: Path, target: Path)
    requires Resolved(root, index, links) && Agree(tree, next) && p in index && p in tree && index[p].path == p
    requires index[p].kind.Hardlink? ==> Terminates(links, p) && target == HardlinkTarget(index, links, p)
    ensures CheckMember(tree, index[p], target) <==> MemberHolds(tree, index, links, root, p)
  {
  }

  lemma AllRight(tree: Tree, index: Index, links: Links, root: string, expected: Index, implicit: set<Path>)
    requires [] in tree && tree[[]] == Dir(if [] in index then index[[]].mode else PRIVATE_MODE)
    requires [] in index ==> index[[]].kind.Directory?
    requires tree.Keys - {[]} == expected.Keys + implicit
    requires forall p :: p in expected <==> p in index && p != []
    requires forall p :: p in implicit <==> p != [] && p !in index && Covered(index.Keys, p)
    requires forall p | p in implicit :: tree[p] == Dir(PRIVATE_MODE)
    requires forall p | p in expected :: MemberHolds(tree, index, links, root, p)
    ensures Matches(tree, index, links)
  {
    hide Holds, Covered, Terminates, Resolved;
    forall p ensures p in tree <==> Covered(index.Keys, p) {
      assert p in tree.Keys - {[]} <==> p in expected.Keys + implicit;
      CoversItself(index, p);
    }
    RootHolds(tree, index, links);
    forall p | p in index ensures p == [] || p in expected {
    }
  }

  lemma RootHolds(tree: Tree, index: Index, links: Links)
    requires [] in tree && tree[[]].Dir? && ([] in index ==> index[[]].kind.Directory?)
    ensures [] in index ==> Holds(tree, index, links, [])
  {
  }

  lemma CoversItself(index: Index, p: Path)
    ensures Covered(index.Keys, []) && (p in index ==> Covered(index.Keys, p))
  {
  }

  // The whole way -------------------------------------------------------------------------------------

  /** Two scans found the same members, in whatever order. */
  ghost predicate SameMembers(a: seq<Member>, b: seq<Member>) {
    forall m :: m in a <==> m in b
  }

  lemma SameIndex(root: string, a: seq<Member>, b: seq<Member>, ma: seq<Member>, mb: seq<Member>, ia: Index, ib: Index)
    requires MembersOf(root, a, ma) && MembersOf(root, b, mb) && Indexes(ia, ma) && Indexes(ib, mb)
    ensures ia == ib <==> SameMembers(a, b)
  {
    if ia == ib {
      forall m ensures m in a ==> m in b {
        SameOneWay(root, a, b, ma, mb, ia, m);
      }
      forall m ensures m in b ==> m in a {
        SameOneWay(root, b, a, mb, ma, ia, m);
      }
    }
    if SameMembers(a, b) {
      forall p | p in ia ensures p in ib && ib[p] == ia[p] {
        SameEntry(root, a, b, ma, mb, ia, ib, p);
      }
      forall p | p in ib ensures p in ia {
        SameEntry(root, b, a, mb, ma, ib, ia, p);
      }
      assert ia.Keys == ib.Keys;
    }
  }

  lemma SameOneWay(root: string, a: seq<Member>, b: seq<Member>, ma: seq<Member>, mb: seq<Member>, index: Index, m: Member)
    requires MembersOf(root, a, ma) && MembersOf(root, b, mb) && Indexes(index, ma) && Indexes(index, mb)
    ensures m in a ==> m in b
  {
    if m in a {
      var k :| 0 <= k < |a| && a[k] == m;
      Indexed(index, ma, k);
      var j := Declared(index, mb, ma[k].path);
      Indexed(index, mb, j);
      assert b[j] == m;
    }
  }

  lemma SameEntry(root: string, a: seq<Member>, b: seq<Member>, ma: seq<Member>, mb: seq<Member>,
                  ia: Index, ib: Index, p: Path)
    requires MembersOf(root, a, ma) && MembersOf(root, b, mb) && Indexes(ia, ma) && Indexes(ib, mb)
    requires SameMembers(a, b) && p in ia
    ensures p in ib && ib[p] == ia[p]
  {
    var k := Declared(ia, ma, p);
    Indexed(ia, ma, k);
    assert a[k] in b;
    var j :| 0 <= j < |b| && b[j] == a[k];
    Indexed(ib, mb, j);
    assert mb[j].path == b[j].path[1..] == a[k].path[1..] == ma[k].path;
  }

  /** An archive is inspected in one scan and extracted in a second.  Every archive that the
      first one accepts is extracted to the tree that it declares, if the second one finds
      the same members, and the check of that tree never fails; no other is extracted. */
  method ExtractArchive(policy: Policy, inspected: seq<Member>, streamed: seq<Member>)
    returns (r: Result<Tree, ArchiveError>, ghost members: seq<Member>, ghost index: Index, ghost links: Links)
    ensures Scannable(policy, inspected) ==> MembersOf(policy.root, inspected, members) && Indexes(index, members)
    ensures r.Ok? <==>
      && Scannable(policy, inspected) && (exists links :: SoundGraph(policy.root, index, policy.allowLinks, links))
      && Scannable(policy, streamed) && SameMembers(inspected, streamed)
    ensures r.Ok? ==> SoundGraph(policy.root, index, policy.allowLinks, links) && Matches(r.value, index, links)
    ensures r.Ok? && Plain([policy.root]) ==> forall p | p in r.value :: Plain(p)
    ensures r.Ok? ==> TreeOf(r.value, index)
    ensures r.Err? ==>
      match r.error
      case ScanFailed(error) => ScanRefuses(policy, inspected, error) || ScanRefuses(policy, streamed, error)
      case GraphFailed(error) => Scannable(policy, inspected) && GraphRefuses(policy.root, index, policy.allowLinks, error)
      case ArchiveChanged => !SameMembers(inspected, streamed)
      case ExtractFailed(_) => false
  {
    hide Matches, Indexes, Unrepeated, MembersOf, Agree, LinksOf, Cyclic, ParentsAreDirectories, Scannable, SameMembers,
      Plain, PlainPaths, TreeOf;
    members, index, links := [], map[], map[];
    var scan := Scan(policy, inspected);
    if scan.Err? {
      return Err(ScanFailed(scan.error)), members, index, links;
    }
    var (all, byPath) := scan.value;
    members, index := all, byPath;
    var graph := ValidateGraph(policy.root, all, byPath, policy.allowLinks);
    if graph.Err? {
      return Err(GraphFailed(graph.error)), members, index, links;
    }
    links := graph.value;
    var again := Scan(policy, streamed);
    if again.Err? {
      return Err(ScanFailed(again.error)), members, index, links;
    }
    var (found, foundByPath) := again.value;
    SameIndex(policy.root, inspected, streamed, all, found, byPath, foundByPath);
    if foundByPath != byPath {
      return Err(ArchiveChanged), members, index, links;
    }
    var tree := ExtractMembers(policy.root, found, byPath, graph.value);
    TreeMeans(tree, byPath, graph.value, policy.root);
    if Plain([policy.root]) {
      TreePlain(tree, found, byPath, graph.value);
    }
    r := Ok(tree);
  }

  /** What is in a tree: the members, each as it was declared, and private directories above them. */
  ghost predicate TreeOf(tree: Tree, index: Index) {
    && (forall p :: p in tree <==> p == [] || exists q | q in index :: p <= q)
    && forall p | p in tree ::
         if p !in index then tree[p] == Dir(0x1C0)
         else match index[p].kind
           case Directory => tree[p] == Dir(index[p].mode)
           case Regular => tree[p].File? && tree[p].data == index[p].data && tree[p].mode == index[p].mode
           case Symlink => tree[p] == Link(index[p].target)
           case Hardlink => tree[p].File?
  }

  lemma TreeMeans(tree: Tree, index: Index, links: Links, root: string)
    requires Matches(tree, index, links) && Resolved(root, index, links) && RootAndParents(index)
    ensures TreeOf(tree, index)
  {
    hide Terminates, LinksOf, Fits;
    forall p | p in tree && p in index
      ensures match index[p].kind
        case Directory => tree[p] == Dir(index[p].mode)
        case Regular => tree[p].File? && tree[p].data == index[p].data && tree[p].mode == index[p].mode
        case Symlink => tree[p] == Link(index[p].target)
        case Hardlink => tree[p].File?
    {
      assert Holds(tree, index, links, p);
      if index[p].kind.Hardlink? {
        HardlinkTargetIsRegular(root, index, links, p);
      }
    }
  }

  /** In the tree of such members there are only such paths. */
  lemma TreePlain(tree: Tree, members: seq<Member>, index: Index, links: Links)
    requires Matches(tree, index, links) && Indexes(index, members) && PlainPaths(members)
    ensures forall p | p in tree :: Plain(p)
  {
    hide Plain, Holds, Terminates;
    forall p | p in tree ensures Plain(p) {
      assert Covered(index.Keys, p);
      if p != [] {
        var q :| q in index && p <= q;
        var j := Declared(index, members, q);
        PlainPart(q, |p|);
        assert q[..|p|] == p;
      } else {
        PlainNothing();
      }
    }
  }

  lemma PlainNothing()
    ensures Plain([])
  {
  }

  /** The directories and files in the order of the stream, then the links and the modes. */
  method ExtractMembers(root: string, members: seq<Member>, index: Index, links: Links) returns (tree: Tree)
    requires Indexes(index, members) && Unrepeated(members) && RootAndParents(index) && Resolved(root, index, links)
    ensures Matches(tree, index, links)
  {
    hide Matches, Indexes, Unrepeated, Agree, LinksOf, Cyclic, ParentsAreDirectories;
    var stage := new Stage();
    var done := stage.Unpack(members, index, links);
    assert done.Ok?;
    done := stage.CreateLinks(members, index, links, root);
    assert done.Ok?;
    done := stage.ApplyModes(members, index, links, root);
    assert done.Ok?;
    MatchedRoot(stage.tree, index, links);
    var ok := VerifyTree(stage.tree, members, index, links, root, stage.nextInode);
    assert ok;
    tree := stage.tree;
  }

  lemma MatchedRoot(tree: Tree, index: Index, links: Links)
    requires Matches(tree, index, links)
    ensures [] in tree
  {
  }
}

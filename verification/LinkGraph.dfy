/** Links between the members of an archive: where they point, and whether every
    one of them leads somewhere. */
module LinkGraph {
  import opened Outcomes
  import opened ByteStrings

  /** The parts of a path below the archive's root; the root itself is []. */
  type Path = seq<string>

  type Links = map<Path, Path>

  datatype Kind = Directory | Regular | Symlink | Hardlink

  datatype GraphError =
    | RootNotDirectory
    | ParentNotDirectory
    | LinksForbidden
    | TargetInvalid
    | TargetEscapes
    | TargetUndeclared
    | TargetNotRegular
    | LinkCycle

  /** A member of an archive; target holds the slash-separated parts of a link's
      target, data the contents of a regular file. */
  datatype Member = Member(path: Path, kind: Kind, mode: nat, data: Bytes, target: seq<string>)

  predicate IsLink(kind: Kind) {
    kind.Symlink? || kind.Hardlink?
  }

  // Walking along links ---------------------------------------------------------------------

  /** n links lead from p to q. */
  ghost predicate Reaches(links: Links, p: Path, q: Path, n: nat)
    decreases n
  {
    if n == 0 then p == q else p in links && Reaches(links, links[p], q, n - 1)
  }

  /** After n links from p there is none to follow. */
  ghost predicate Ends(links: Links, p: Path, n: nat)
    decreases n
  {
    if n == 0 then p !in links else p in links && Ends(links, links[p], n - 1)
  }

  ghost predicate Terminates(links: Links, p: Path) {
    exists n: nat :: Ends(links, p, n)
  }

  ghost predicate Cyclic(links: Links) {
    exists p, n: nat :: 0 < n && Reaches(links, p, p, n)
  }

  lemma {:induction false} EndsOnce(links: Links, p: Path, m: nat, n: nat)
    requires Ends(links, p, m) && Ends(links, p, n)
    ensures m == n
    decreases m
  {
    if m > 0 {
      EndsOnce(links, links[p], m - 1, n - 1);
    }
  }

  lemma {:induction false} ReachedEnds(links: Links, p: Path, q: Path, k: nat, n: nat)
    requires Reaches(links, p, q, k) && Ends(links, p, n)
    ensures k <= n && Ends(links, q, n - k)
    decreases k
  {
    if k > 0 {
      ReachedEnds(links, links[p], q, k - 1, n - 1);
    }
  }

  lemma {:induction false} ReachesOneMore(links: Links, p: Path, q: Path, n: nat)
    requires Reaches(links, p, q, n) && q in links
    ensures Reaches(links, p, links[q], n + 1)
    decreases n
  {
    if n > 0 {
      ReachesOneMore(links, links[p], q, n - 1);
    }
  }

  /** Where every walk ends there is no cycle. */
  lemma TerminatingIsAcyclic(links: Links)
    requires forall p | p in links :: Terminates(links, p)
    ensures !Cyclic(links)
  {
    forall p, n: nat | 0 < n && Reaches(links, p, p, n)
      ensures false
    {
      var end: nat :| Ends(links, p, end);
      ReachedEnds(links, p, p, n, end);
      EndsOnce(links, p, end, end - n);
    }
  }

  /** The paths that a search is on its way from, each linked to the next. */
  ghost predicate Trail(links: Links, stack: seq<Path>, path: Path) {
    forall i {:trigger stack[i]} | 0 <= i < |stack| ::
      stack[i] in links && links[stack[i]] == if i + 1 < |stack| then stack[i + 1] else path
  }

  lemma {:induction false} TrailReaches(links: Links, stack: seq<Path>, path: Path, i: nat)
    requires Trail(links, stack, path) && i < |stack|
    ensures Reaches(links, stack[i], path, |stack| - i)
    decreases |stack| - i
  {
    if i + 1 < |stack| {
      TrailReaches(links, stack, path, i + 1);
    } else {
      assert Reaches(links, path, path, 0);
    }
  }

  /** The depth-first search for a cycle. */
  class Search {
    const links: Links
    var visiting: set<Path>
    var visited: set<Path>

    constructor (links: Links)
      ensures this.links == links && visiting == {} && visited == {}
    {
      this.links, visiting, visited := links, {}, {};
    }

    ghost predicate Valid()
      reads this
    {
      && visiting <= links.Keys && visited <= links.Keys
      && forall p | p in visited :: Terminates(links, p)
    }

    /** Follow the links from path; false means that they lead into a cycle. */
    method Visit(path: Path, ghost stack: seq<Path>) returns (ok: bool)
      requires Valid() && path in links && Trail(links, stack, path)
      requires visiting == set p | p in stack
      modifies this
      ensures Valid() && old(visited) <= visited
      ensures ok ==> path in visited && visiting == old(visiting)
      ensures !ok ==> Cyclic(links)
      decreases links.Keys - visiting
    {
      if path in visited {
        return true;
      }
      if path in visiting {
        ghost var i :| 0 <= i < |stack| && stack[i] == path;
        TrailReaches(links, stack, path, i);
        return false;
      }
      visiting := visiting + {path};
      var target := links[path];
      if target in links {
        ghost var longer := stack + [path];
        assert visiting == set p | p in longer;
        assert forall i {:trigger longer[i]} | 0 <= i < |stack| :: longer[i] == stack[i];
        ok := Visit(target, longer);
        if !ok {
          return false;
        }
        ghost var n: nat :| Ends(links, target, n);
        assert Ends(links, path, n + 1);
      } else {
        assert Ends(links, target, 0);
        assert Ends(links, path, 1);
      }
      visiting := visiting - {path};
      visited := visited + {path};
      ok := true;
    }

    /** Visit every path. */
    method Run() returns (ok: bool)
      requires Valid() && visiting == {}
      modifies this
      ensures ok <==> !Cyclic(links)
      ensures ok ==> forall p | p in links :: Terminates(links, p)
    {
      var left := links.Keys;
      while left != {}
        invariant Valid() && visiting == {} && left <= links.Keys
        invariant links.Keys - left <= visited
        decreases left
      {
        var path :| path in left;
        ok := Visit(path, []);
        if !ok {
          return;
        }
        left := left - {path};
      }
      TerminatingIsAcyclic(links);
      ok := true;
    }
  }

  // Targets --------------------------------------------------------------------------------------

  /** posixpath.normpath on the parts of a relative path. */
  function Normalize(done: seq<string>, parts: seq<string>): seq<string>
    decreases |parts|
  {
    if parts == [] then done
    else if parts[0] in {"", "."} then Normalize(done, parts[1..])
    else if parts[0] != ".." || done == [] || done[|done| - 1] == ".." then Normalize(done + [parts[0]], parts[1..])
    else Normalize(done[..|done| - 1], parts[1..])
  }

  /** Where a link points, below the root. */
  function ResolvedLink(root: string, member: Member): Result<Path, GraphError> {
    if member.target == [] || member.target[0] == "" then Err(TargetInvalid) // empty, or absolute
    else
      var base := if member.kind.Hardlink? || member.path == [] then [] else [root] + member.path[..|member.path| - 1];
      var resolved := Normalize([], base + member.target);
      if resolved != [] && resolved[0] == root then Ok(resolved[1..]) else Err(TargetEscapes)
  }

  /** A normalized path has no way up but at its beginning. */
  ghost predicate Clean(parts: seq<string>) {
    && (forall i | 0 <= i < |parts| :: parts[i] != "" && parts[i] != ".")
    && (forall i | 0 < i < |parts| && parts[i] == ".." :: parts[i - 1] == "..")
  }

  lemma {:induction false} NormalizeClean(done: seq<string>, parts: seq<string>)
    requires Clean(done)
    ensures Clean(Normalize(done, parts))
    decreases |parts|
  {
    if parts != [] {
      if parts[0] in {"", "."} {
        NormalizeClean(done, parts[1..]);
      } else if parts[0] != ".." || done == [] || done[|done| - 1] == ".." {
        NormalizeClean(done + [parts[0]], parts[1..]);
      } else {
        NormalizeClean(done[..|done| - 1], parts[1..]);
      }
    }
  }

  lemma {:induction false} CleanStaysBelow(parts: seq<string>, i: nat)
    requires Clean(parts) && i < |parts| && parts[0] != ".."
    ensures parts[i] != ".."
    decreases i
  {
    if i > 0 {
      CleanStaysBelow(parts, i - 1);
    }
  }

  /** A link that resolves stays below the root: its path holds no way up. */
  lemma ResolvedStaysBelow(root: string, member: Member)
    requires ResolvedLink(root, member).Ok? && root != ".."
    ensures forall part | part in ResolvedLink(root, member).value :: part !in {"", ".", ".."}
  {
    var base := if member.kind.Hardlink? || member.path == [] then [] else [root] + member.path[..|member.path| - 1];
    var resolved := Normalize([], base + member.target);
    NormalizeClean([], base + member.target);
    forall part | part in resolved[1..] ensures part !in {"", ".", ".."} {
      var i :| 0 <= i < |resolved[1..]| && resolved[1..][i] == part;
      CleanStaysBelow(resolved, i + 1);
    }
  }

  // What normalizing means ------------------------------------------------------------------------

  /** Parts that are names of something. */
  ghost predicate Plain(parts: seq<string>) {
    forall i | 0 <= i < |parts| :: parts[i] != "" && parts[i] != "." && parts[i] != ".."
  }

  /** Names are kept. */
  lemma {:induction false} NormalizePlain(done: seq<string>, parts: seq<string>)
    requires Plain(parts)
    ensures Normalize(done, parts) == done + parts
    decreases |parts|
  {
    if parts != [] {
      NormalizePlain(done + [parts[0]], parts[1..]);
      assert (done + [parts[0]]) + parts[1..] == done + parts;
    } else {
      assert done + parts == done;
    }
  }

  /** The normal form is worked out from left to right. */
  lemma {:induction false} NormalizeBoth(done: seq<string>, a: seq<string>, b: seq<string>)
    ensures Normalize(done, a + b) == Normalize(Normalize(done, a), b)
    decreases |a|
  {
    if a == [] {
      assert a + b == b;
    } else {
      assert (a + b)[1..] == a[1..] + b && (a + b)[0] == a[0];
      if a[0] in {"", "."} {
        NormalizeBoth(done, a[1..], b);
      } else if a[0] != ".." || done == [] || done[|done| - 1] == ".." {
        NormalizeBoth(done + [a[0]], a[1..], b);
      } else {
        NormalizeBoth(done[..|done| - 1], a[1..], b);
      }
    }
  }

  /** Empty parts and dots mean nothing, and a name and the way up from it cancel. */
  lemma NormalizeLaws(a: seq<string>, name: string, b: seq<string>)
    requires name !in {"", ".", ".."}
    ensures Normalize([], a + ["."] + b) == Normalize([], a + b) == Normalize([], a + [""] + b)
    ensures Normalize([], a + [name, ".."] + b) == Normalize([], a + b)
  {
    var done := Normalize([], a);
    NormalizeBoth([], a, b);
    NormalizeBoth([], a, ["."]);
    NormalizeBoth([], a + ["."], b);
    NormalizeBoth([], a, [""]);
    NormalizeBoth([], a + [""], b);
    NormalizeBoth([], a, [name, ".."]);
    NormalizeBoth([], a + [name, ".."], b);
    assert ["."][1..] == [] && [""][1..] == [];
    assert [name, ".."][1..] == [".."] && [".."][1..] == [];
    assert (done + [name])[..|done|] == done;
  }

  /** A way up from the beginning leads out, and stays. */
  lemma {:induction false} NormalizeOut(n: nat, parts: seq<string>)
    requires Plain(parts)
    ensures Normalize([], Ups(n) + parts) == Ups(n) + parts
  {
    UpsStay(0, n);
    NormalizeBoth([], Ups(n), parts);
    NormalizePlain(Ups(n), parts);
  }

  function Ups(n: nat): (ups: seq<string>)
    ensures |ups| == n && forall i | 0 <= i < n :: ups[i] == ".."
  {
    seq(n, _ => "..")
  }

  lemma {:induction false} UpsStay(m: nat, n: nat)
    ensures Normalize(Ups(m), Ups(n)) == Ups(m + n)
    decreases n
  {
    if n > 0 {
      assert Ups(m) + [".."] == Ups(m + 1) && Ups(n)[1..] == Ups(n - 1);
      UpsStay(m + 1, n - 1);
    }
  }

  /** Going up takes the last names away. */
  lemma {:induction false} NormalizeUps(done: seq<string>, n: nat)
    requires Plain(done) && n <= |done|
    ensures Normalize(done, Ups(n)) == done[..|done| - n]
    decreases n
  {
    if n > 0 {
      assert Ups(n)[1..] == Ups(n - 1);
      NormalizeUps(done[..|done| - 1], n - 1);
      assert done[..|done| - 1][..|done| - n] == done[..|done| - n];
    } else {
      assert done[..|done|] == done;
    }
  }

  /** From a directory up by n, and down along names. */
  lemma UpDown(base: seq<string>, n: nat, down: seq<string>)
    requires Plain(base) && Plain(down)
    ensures Normalize([], base + (Ups(n) + down)) ==
      if n <= |base| then base[..|base| - n] + down else Ups(n - |base|) + down
  {
    hide Normalize, Plain;
    NormalizePlain([], base);
    assert [] + base == base;
    NormalizeBoth([], base, Ups(n) + down);
    NormalizeBoth(base, Ups(n), down);
    if n <= |base| {
      NormalizeUps(base, n);
      PlainPart(base, |base| - n);
      NormalizePlain(base[..|base| - n], down);
    } else {
      assert Ups(n) == Ups(|base|) + Ups(n - |base|);
      NormalizeBoth(base, Ups(|base|), Ups(n - |base|));
      NormalizeUps(base, |base|);
      assert base[..0] == Ups(0);
      UpsStay(0, n - |base|);
      NormalizePlain(Ups(n - |base|), down);
    }
  }

  lemma PlainPart(parts: seq<string>, n: nat)
    requires Plain(parts) && n <= |parts|
    ensures Plain(parts[..n])
  {
  }

  lemma PlainBoth(a: seq<string>, b: seq<string>)
    ensures Plain(a + b) <==> Plain(a) && Plain(b)
  {
    assert forall i | 0 <= i < |a| :: (a + b)[i] == a[i];
    assert forall i | 0 <= i < |b| :: (a + b)[|a| + i] == b[i];
  }

  /** A symbolic link points from its own directory: up by n, and down along names.  It
      resolves as long as it does not leave the root. */
  lemma SymlinkMeans(root: string, member: Member, n: nat, down: seq<string>)
    requires member.kind.Symlink? && member.path != []
    requires Plain([root]) && Plain(member.path) && Plain(down)
    requires member.target == Ups(n) + down && member.target != []
    ensures var dir := member.path[..|member.path| - 1];
      ResolvedLink(root, member) ==
        if n <= |dir| then Ok(dir[..|dir| - n] + down)
        else if n == |dir| + 1 && down != [] && down[0] == root then Ok(down[1..])
        else Err(TargetEscapes)
  {
    hide Normalize;
    var dir := member.path[..|member.path| - 1];
    PlainPart(member.path, |member.path| - 1);
    PlainBoth([root], dir);
    UpDown([root] + dir, n, down);
    if n == 0 {
      assert member.target == down;
    } else {
      assert member.target[0] == Ups(n)[0];
    }
    if n <= |dir| {
      assert ([root] + dir)[..1 + |dir| - n] == [root] + dir[..|dir| - n];
      assert (([root] + dir[..|dir| - n]) + down)[1..] == dir[..|dir| - n] + down;
    } else if n == |dir| + 1 {
      assert ([root] + dir)[..0] + down == down;
    } else {
      assert (Ups(n - |dir| - 1) + down)[0] == "..";
      assert [root][0] == root;
    }
  }

  /** A hard link names its target from the top of the archive. */
  lemma HardlinkMeans(root: string, member: Member, below: seq<string>)
    requires member.kind.Hardlink? && Plain([root] + below)
    ensures member.target == [root] + below ==> ResolvedLink(root, member) == Ok(below)
    ensures member.target == below && below != [] && below[0] != root ==> ResolvedLink(root, member) == Err(TargetEscapes)
  {
    assert forall i | 0 <= i < |below| :: below[i] == ([root] + below)[i + 1];
    assert ([root] + below)[0] == root;
    if member.target == [root] + below {
      NormalizePlain([], member.target);
      assert [] + member.target == member.target && member.target[1..] == below;
    }
    if member.target == below && below != [] {
      NormalizePlain([], member.target);
      assert [] + member.target == member.target;
    }
  }

  /** An empty target, and an absolute one, are refused. */
  lemma TargetRefused(root: string, member: Member)
    ensures member.target == [] || member.target[0] == "" ==> ResolvedLink(root, member) == Err(TargetInvalid)
  {
  }

  /** A path is its own normal form exactly if it has no empty part, no dot, and goes up
      only at its beginning. */
  lemma {:induction false} NormalFixed(parts: seq<string>)
    ensures Normalize([], parts) == parts <==> Clean(parts)
  {
    NormalizeClean([], parts);
    if Clean(parts) {
      CleanFixed([], parts);
      assert [] + parts == parts;
    }
  }

  lemma {:induction false} CleanFixed(done: seq<string>, parts: seq<string>)
    requires Clean(done + parts)
    ensures Normalize(done, parts) == done + parts
    decreases |parts|
  {
    var whole := done + parts;
    if parts != [] {
      assert whole[|done|] == parts[0];
      if parts[0] == ".." && done != [] {
        assert whole[|done| - 1] == done[|done| - 1];
      }
      assert (done + [parts[0]]) + parts[1..] == whole;
      CleanFixed(done + [parts[0]], parts[1..]);
    } else {
      assert whole == done;
    }
  }
}

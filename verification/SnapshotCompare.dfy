/** Snapshots of the files that a Finish may change, the rules that are derived before
    it, and the comparison after it. */
module SnapshotCompare {
  import opened Outcomes

  type Digest = nat

  datatype FileState = Absent | Regular

  datatype Record = Record(
    path: string,
    state: FileState,
    mode: Option<nat>,
    size: Option<nat>,
    sha256: Option<Digest>,
    isPrivate: bool)

  datatype Snapshot = Snapshot(transaction: nat, manifest: nat, steamRoot: nat, version: nat, records: seq<Record>)

  datatype Policy = Expected | Unchanged

  datatype Rule = Rule(path: string, policy: Policy, sha256: Option<Digest>, mode: Option<nat>)

  datatype Target = Target(path: string, sha256: Digest, mode: nat)

  datatype Compared = Compared(path: string, before: Record, after: Record, policy: Policy)

  datatype Comparison = Comparison(expected: seq<Compared>, same: seq<Compared>, unexpected: seq<Compared>) {

    predicate Ok() {
      unexpected == []
    }
  }

  datatype CompareError =
    | RecordInvalid
    | DuplicatePath
    | IdentityDiffers
    | CoverageDiffers
    | RuleInvalid
    | PrivacyDiffers
    | OutsidePolicy
    | LicensedChanged

  type Index = map<string, Record>

  const LICENSED_PATH := "prefix/threading"
  const LICENSED_MODE: nat := 0x1A4 // 0o644
  const MAX_MODE: nat := 0xFFF // 0o7777

  // Order ----------------------------------------------------------------------------------------------

  /** The order of strings by their characters. */
  predicate Less(a: string, b: string) {
    b != [] && (a == [] || a[0] < b[0] || (a[0] == b[0] && Less(a[1..], b[1..])))
  }

  /** One string comes before another if it is a beginning of it, or smaller where they part. */
  lemma {:induction false} LessMeans(a: string, b: string)
    ensures Less(a, b) <==> a < b || exists k: nat :: Parts(a, b, k)
    decreases |a|
  {
    if a != [] && b != [] && a[0] == b[0] {
      LessMeans(a[1..], b[1..]);
      assert a == [a[0]] + a[1..] && b == [b[0]] + b[1..];
      if k: nat :| Parts(a[1..], b[1..], k) {
        assert a[..k + 1] == [a[0]] + a[1..][..k] && b[..k + 1] == [b[0]] + b[1..][..k];
        assert Parts(a, b, k + 1);
      }
      if k: nat :| Parts(a, b, k) {
        assert a[1..][..k - 1] == a[..k][1..] && b[1..][..k - 1] == b[..k][1..];
        assert Parts(a[1..], b[1..], k - 1);
      }
    } else if a != [] && b != [] {
      forall k: nat | Parts(a, b, k) ensures k == 0 {
        if k > 0 {
          PartsFirst(a, b, k);
        }
      }
      assert a[0] < b[0] ==> Parts(a, b, 0);
    }
  }

  lemma PartsFirst(a: string, b: string, k: nat)
    requires Parts(a, b, k) && k > 0
    ensures a[0] == b[0]
  {
    assert a[..k][0] == b[..k][0];
  }

  ghost predicate Parts(a: string, b: string, k: nat) {
    k < |a| && k < |b| && a[..k] == b[..k] && a[k] < b[k]
  }

  lemma {:induction false} LessTrans(a: string, b: string, c: string)
    requires Less(a, b) && Less(b, c)
    ensures Less(a, c)
  {
    if a != [] && a[0] == b[0] == c[0] {
      LessTrans(a[1..], b[1..], c[1..]);
    }
  }

  lemma {:induction false} LessTotal(a: string, b: string)
    ensures Less(a, b) || Less(b, a) || a == b
  {
    if a != [] && b != [] && a[0] == b[0] {
      LessTotal(a[1..], b[1..]);
      if a[1..] == b[1..] {
        assert a == [a[0]] + a[1..] && b == [b[0]] + b[1..];
      }
    }
  }

  lemma {:induction false} LessIrreflexive(a: string)
    ensures !Less(a, a)
  {
    if a != [] {
      LessIrreflexive(a[1..]);
    }
  }

  ghost predicate Sorted(paths: seq<string>) {
    forall i, j | 0 <= i < j < |paths| :: Less(paths[i], paths[j])
  }

  method Smallest(paths: set<string>) returns (least: string)
    requires paths != {}
    ensures least in paths && forall p | p in paths && p != least :: Less(least, p)
  {
    least :| least in paths;
    var left := paths - {least};
    while left != {}
      invariant left <= paths && least in paths
      invariant forall p | p in paths - left && p != least :: Less(least, p)
      decreases left
    {
      var p :| p in left;
      LessTotal(p, least);
      if Less(p, least) {
        forall q | q in paths - left && q != p ensures Less(p, q) {
          if q != least {
            LessTrans(p, least, q);
          }
        }
        least := p;
      }
      left := left - {p};
    }
  }

  method SortPaths(paths: set<string>) returns (sorted: seq<string>)
    ensures Sorted(sorted) && forall p :: p in sorted <==> p in paths
  {
    sorted := [];
    var left := paths;
    while left != {}
      invariant left <= paths && Sorted(sorted) && (forall p :: p in sorted <==> p in paths - left)
      invariant forall p, q | p in sorted && q in left :: Less(p, q)
      decreases left
    {
      var least := Smallest(left);
      sorted := sorted + [least];
      left := left - {least};
    }
  }

  // Records ------------------------------------------------------------------------------------------

  predicate ValidRecord(r: Record) {
    match r.state
    case Absent => r.mode.None? && r.size.None? && r.sha256.None?
    case Regular => r.mode.Some? && r.mode.value <= MAX_MODE && r.size.Some? && r.sha256.Some?
  }

  /** A regular file as it was captured. */
  datatype Found = Found(mode: nat, size: nat, sha256: Digest)

  function Capture(path: string, found: Option<Found>, isPrivate: bool): Record {
    match found
    case None => Record(path, Absent, None, None, None, isPrivate)
    case Some(f) => Record(path, Regular, Some(f.mode), Some(f.size), Some(f.sha256), isPrivate)
  }

  /** The valid records are those that a capture can make. */
  lemma ValidIsCaptured(r: Record)
    ensures ValidRecord(r) <==>
      exists found: Option<Found> :: (found.Some? ==> found.value.mode <= 0xFFF) && r == Capture(r.path, found, r.isPrivate)
  {
    if ValidRecord(r) {
      var found := if r.state.Absent? then None else Some(Found(r.mode.value, r.size.value, r.sha256.value));
      assert r == Capture(r.path, found, r.isPrivate);
    }
  }

  /** The records of a snapshot, which are valid and have paths of their own. */
  ghost predicate Indexed(records: seq<Record>, index: Index) {
    && (forall i | 0 <= i < |records| :: ValidRecord(records[i]) && records[i].path in index && index[records[i].path] == records[i])
    && (forall p | p in index :: index[p] in records && index[p].path == p)
    && (forall i, j | 0 <= i < j < |records| :: records[i].path != records[j].path)
  }

  ghost predicate Indexable(records: seq<Record>) {
    exists index :: Indexed(records, index)
  }

  lemma NotIndexable(records: seq<Record>, i: nat, j: nat)
    requires i <= j < |records|
    requires if i == j then !ValidRecord(records[i]) else records[i].path == records[j].path
    ensures !Indexable(records)
  {
  }

  ghost predicate RecordsRefused(records: seq<Record>, error: CompareError) {
    match error
    case RecordInvalid => exists item :: item in records && !ValidRecord(item)
    case DuplicatePath => exists i, j :: 0 <= i < j < |records| && records[i].path == records[j].path
    case _ => false
  }

  method IndexedRecords(records: seq<Record>) returns (r: Result<Index, CompareError>)
    ensures r.Ok? ==> Indexed(records, r.value)
    ensures r.Ok? <==> Indexable(records)
    ensures r.Err? ==> RecordsRefused(records, r.error)
  {
    hide ValidRecord;
    var index: Index := map[];
    for i := 0 to |records|
      invariant Indexed(records[..i], index)
    {
      var item := records[i];
      if !ValidRecord(item) {
        NotIndexable(records, i, i);
        return Err(RecordInvalid);
      }
      if item.path in index {
        ghost var j :| 0 <= j < i && records[..i][j] == index[item.path];
        NotIndexable(records, j, i);
        return Err(DuplicatePath);
      }
      index := index[item.path := item];
      assert records[..i + 1] == records[..i] + [item];
    }
    assert records[..|records|] == records;
    r := Ok(index);
  }

  // Rules ------------------------------------------------------------------------------------------------

  predicate ValidRule(rule: Rule) {
    && (rule.sha256.None? <==> rule.mode.None?)
    && (rule.mode.Some? ==> rule.mode.value <= MAX_MODE)
  }

  /** A valid rule wants a file to be absent, or to have contents and a mode. */
  lemma ValidRuleMeans(rule: Rule)
    ensures ValidRule(rule) <==>
      || (rule.sha256.None? && rule.mode.None?)
      || (rule.sha256.Some? && rule.mode.Some? && rule.mode.value <= 0xFFF)
  {
  }

  predicate MatchesRule(item: Record, rule: Rule) {
    if rule.sha256.None? then item.state.Absent?
    else item.state.Regular? && item.sha256 == rule.sha256 && item.mode == rule.mode
  }

  ghost predicate RulesFor(rules: seq<Rule>, index: map<string, Rule>) {
    && (forall i | 0 <= i < |rules| :: ValidRule(rules[i]) && rules[i].path in index && index[rules[i].path] == rules[i])
    && (forall p | p in index :: index[p] in rules && index[p].path == p)
    && (forall i, j | 0 <= i < j < |rules| :: rules[i].path != rules[j].path)
  }

  lemma NoRules(rules: seq<Rule>, i: nat, j: nat)
    requires i <= j < |rules|
    requires if i == j then !ValidRule(rules[i]) else rules[i].path == rules[j].path
    ensures !exists index :: RulesFor(rules, index)
  {
  }

  ghost predicate RulesRefused(rules: seq<Rule>, error: CompareError) {
    match error
    case RuleInvalid => exists rule :: rule in rules && !ValidRule(rule)
    case DuplicatePath => exists i, j :: 0 <= i < j < |rules| && rules[i].path == rules[j].path
    case _ => false
  }

  method IndexRules(rules: seq<Rule>) returns (r: Result<map<string, Rule>, CompareError>)
    ensures r.Ok? ==> RulesFor(rules, r.value)
    ensures r.Ok? <==> exists index :: RulesFor(rules, index)
    ensures r.Err? ==> RulesRefused(rules, r.error)
  {
    hide ValidRule;
    var index: map<string, Rule> := map[];
    for i := 0 to |rules|
      invariant RulesFor(rules[..i], index)
    {
      var rule := rules[i];
      if !ValidRule(rule) {
        NoRules(rules, i, i);
        return Err(RuleInvalid);
      }
      if rule.path in index {
        ghost var j :| 0 <= j < i && rules[..i][j] == index[rule.path];
        NoRules(rules, j, i);
        return Err(DuplicatePath);
      }
      index := index[rule.path := rule];
      assert rules[..i + 1] == rules[..i] + [rule];
    }
    assert rules[..|rules|] == rules;
    r := Ok(index);
  }

  // Comparison ---------------------------------------------------------------------------------------

  datatype Class = ExpectedChange | RequiredSame | UnexpectedChange

  function ClassOf(before: Record, after: Record, rule: Rule): Class {
    if rule.policy.Expected? && before != after && MatchesRule(after, rule) then ExpectedChange
    else if rule.policy.Unchanged? && before == after && MatchesRule(after, rule) then RequiredSame
    else UnexpectedChange
  }

  /** All three know the same paths. */
  predicate Covers(paths: seq<string>, before: Index, after: Index, rules: map<string, Rule>) {
    forall p | p in paths :: p in before && p in after && p in rules
  }

  /** The compared records of one class, in the order of the paths. */
  ghost function Listed(paths: seq<string>, kind: Class, before: Index, after: Index, rules: map<string, Rule>): seq<Compared>
    requires Covers(paths, before, after, rules)
  {
    if paths == [] then []
    else
      var p := paths[|paths| - 1];
      Listed(paths[..|paths| - 1], kind, before, after, rules)
      + if ClassOf(before[p], after[p], rules[p]) == kind then [Compared(p, before[p], after[p], rules[p].policy)] else []
  }

  /** A list holds exactly the records of its class. */
  lemma {:induction false} ListedHas(paths: seq<string>, kind: Class, before: Index, after: Index, rules: map<string, Rule>,
                                     c: Compared)
    requires Covers(paths, before, after, rules)
    ensures c in Listed(paths, kind, before, after, rules) <==>
      && c.path in paths && ClassOf(before[c.path], after[c.path], rules[c.path]) == kind
      && c == Compared(c.path, before[c.path], after[c.path], rules[c.path].policy)
  {
    hide ClassOf, Less;
    if paths != [] {
      var p := paths[|paths| - 1];
      var rest := paths[..|paths| - 1];
      ListedHas(rest, kind, before, after, rules, c);
      assert c.path in paths <==> c.path in rest || c.path == p by {
        assert paths == rest + [p];
      }
    }
  }

  /** A list is sorted. */
  lemma {:induction false} ListedSorted(paths: seq<string>, kind: Class, before: Index, after: Index, rules: map<string, Rule>)
    requires Covers(paths, before, after, rules) && Sorted(paths)
    ensures var list := Listed(paths, kind, before, after, rules);
      forall i, j | 0 <= i < j < |list| :: Less(list[i].path, list[j].path)
  {
    hide ClassOf, Less;
    if paths != [] {
      var p := paths[|paths| - 1];
      var rest := paths[..|paths| - 1];
      ListedSorted(rest, kind, before, after, rules);
      var list := Listed(rest, kind, before, after, rules);
      forall i | 0 <= i < |list| ensures Less(list[i].path, p) {
        ListedHas(rest, kind, before, after, rules, list[i]);
        var k :| 0 <= k < |rest| && rest[k] == list[i].path;
        assert Less(paths[k], p);
      }
    }
  }

  /** The pairs of snapshots, with their rules, that can be compared. */
  ghost predicate Comparable(before: Snapshot, after: Snapshot, rules: seq<Rule>, b: Index, a: Index, r: map<string, Rule>) {
    && Indexed(before.records, b) && Indexed(after.records, a) && RulesFor(rules, r)
    && before.transaction == after.transaction && before.manifest == after.manifest && before.steamRoot == after.steamRoot
    && before.version == after.version
    && b.Keys == a.Keys == r.Keys
    && forall p | p in b :: b[p].isPrivate == a[p].isPrivate
  }

  lemma IndexUnique(records: seq<Record>, a: Index, b: Index)
    requires Indexed(records, a) && Indexed(records, b)
    ensures a == b
  {
    forall p | p in a ensures p in b && b[p] == a[p] {
      var i :| 0 <= i < |records| && records[i] == a[p];
    }
    forall p | p in b ensures p in a {
      var i :| 0 <= i < |records| && records[i] == b[p];
    }
  }

  lemma RulesUnique(rules: seq<Rule>, a: map<string, Rule>, b: map<string, Rule>)
    requires RulesFor(rules, a) && RulesFor(rules, b)
    ensures a == b
  {
    forall p | p in a ensures p in b && b[p] == a[p] {
      var i :| 0 <= i < |rules| && rules[i] == a[p];
    }
    forall p | p in b ensures p in a {
      var i :| 0 <= i < |rules| && rules[i] == b[p];
    }
  }

  /** Every path falls into exactly one of three lists, each of them sorted. */
  method CompareSnapshots(before: Snapshot, after: Snapshot, rules: seq<Rule>)
    returns (r: Result<Comparison, CompareError>, ghost paths: seq<string>,
             ghost b: Index, ghost a: Index, ghost byPath: map<string, Rule>)
    ensures r.Ok? ==>
      && Comparable(before, after, rules, b, a, byPath)
      && Sorted(paths) && (forall p :: p in paths <==> p in b) && Covers(paths, b, a, byPath)
      && r.value.expected == Listed(paths, ExpectedChange, b, a, byPath)
      && r.value.same == Listed(paths, RequiredSame, b, a, byPath)
      && r.value.unexpected == Listed(paths, UnexpectedChange, b, a, byPath)
      && forall c: Compared ::
           && (c in r.value.expected <==> IsOf(c, b, a, byPath) && ToChange(byPath[c.path]) && ChangedAsPlanned(c, byPath[c.path]))
           && (c in r.value.same <==> IsOf(c, b, a, byPath) && !ToChange(byPath[c.path]) && StayedAsPlanned(c, byPath[c.path]))
           && (c in r.value.unexpected <==>
                 && IsOf(c, b, a, byPath) && !(ToChange(byPath[c.path]) && ChangedAsPlanned(c, byPath[c.path]))
                 && !(!ToChange(byPath[c.path]) && StayedAsPlanned(c, byPath[c.path])))
    ensures r.Err? ==> !exists x, y, z :: Comparable(before, after, rules, x, y, z)
    ensures r.Err? ==>
      || RecordsRefused(before.records, r.error) || RecordsRefused(after.records, r.error) || RulesRefused(rules, r.error)
      || match r.error
         case IdentityDiffers => (before.transaction, before.manifest, before.steamRoot, before.version)
                                 != (after.transaction, after.manifest, after.steamRoot, after.version)
         case CoverageDiffers => a.Keys != b.Keys || byPath.Keys != b.Keys
         case PrivacyDiffers => exists p :: p in b && p in a && b[p].isPrivate != a[p].isPrivate
         case _ => false
  {
    hide Indexed, RulesFor, Less, ClassOf, MatchesRule, IsOf, ToChange, ChangedAsPlanned, StayedAsPlanned;
    paths, b, a, byPath := [], map[], map[], map[];
    var first := IndexedRecords(before.records);
    var second := IndexedRecords(after.records);
    var third := IndexRules(rules);
    if first.Err? || second.Err? || third.Err? {
      return Err(if first.Err? then first.error else if second.Err? then second.error else third.error), paths, b, a, byPath;
    }
    var x, y, z := first.value, second.value, third.value;
    b, a, byPath := x, y, z;
    forall x0, y0, z0 | Comparable(before, after, rules, x0, y0, z0) ensures x0 == b && y0 == a && z0 == byPath {
      IndexUnique(before.records, x0, b);
      IndexUnique(after.records, y0, a);
      RulesUnique(rules, z0, byPath);
    }
    if before.transaction != after.transaction || before.manifest != after.manifest || before.steamRoot != after.steamRoot
       || before.version != after.version {
      return Err(IdentityDiffers), paths, b, a, byPath;
    }
    if x.Keys != y.Keys || z.Keys != x.Keys {
      return Err(CoverageDiffers), paths, b, a, byPath;
    }
    var sorted := SortPaths(x.Keys);
    paths := sorted;
    r := Classify(sorted, x, y, z);
    if r.Ok? {
      ListsMean(sorted, x, y, z);
    }
  }

  // What the lists mean ----------------------------------------------------------------------------

  /** The comparison of one path. */
  ghost predicate IsOf(c: Compared, before: Index, after: Index, rules: map<string, Rule>) {
    && c.path in before && c.path in after && c.path in rules
    && c.before == before[c.path] && c.after == after[c.path] && c.policy == rules[c.path].policy
  }

  ghost predicate ToChange(rule: Rule) {
    rule.policy == Expected
  }

  /** A file that was to change did, to what the rule says. */
  ghost predicate ChangedAsPlanned(c: Compared, rule: Rule) {
    c.before != c.after && AsDesired(c.after, (rule.sha256, rule.mode))
  }

  /** A file that was to stay did, and is what the rule says. */
  ghost predicate StayedAsPlanned(c: Compared, rule: Rule) {
    c.before == c.after && AsDesired(c.after, (rule.sha256, rule.mode))
  }

  lemma ListsMean(paths: seq<string>, before: Index, after: Index, rules: map<string, Rule>)
    requires Covers(paths, before, after, rules) && forall p :: p in paths <==> p in before
    ensures forall c: Compared ::
      && (c in Listed(paths, ExpectedChange, before, after, rules) <==>
            IsOf(c, before, after, rules) && ToChange(rules[c.path]) && ChangedAsPlanned(c, rules[c.path]))
      && (c in Listed(paths, RequiredSame, before, after, rules) <==>
            IsOf(c, before, after, rules) && !ToChange(rules[c.path]) && StayedAsPlanned(c, rules[c.path]))
      && (c in Listed(paths, UnexpectedChange, before, after, rules) <==>
            && IsOf(c, before, after, rules) && !(ToChange(rules[c.path]) && ChangedAsPlanned(c, rules[c.path]))
            && !(!ToChange(rules[c.path]) && StayedAsPlanned(c, rules[c.path])))
  {
    hide Listed;
    forall c: Compared
      ensures c in Listed(paths, ExpectedChange, before, after, rules) <==>
        IsOf(c, before, after, rules) && ToChange(rules[c.path]) && ChangedAsPlanned(c, rules[c.path])
      ensures c in Listed(paths, RequiredSame, before, after, rules) <==>
        IsOf(c, before, after, rules) && !ToChange(rules[c.path]) && StayedAsPlanned(c, rules[c.path])
      ensures c in Listed(paths, UnexpectedChange, before, after, rules) <==>
        && IsOf(c, before, after, rules) && !(ToChange(rules[c.path]) && ChangedAsPlanned(c, rules[c.path]))
        && !(!ToChange(rules[c.path]) && StayedAsPlanned(c, rules[c.path]))
    {
      ListedHas(paths, ExpectedChange, before, after, rules, c);
      ListedHas(paths, RequiredSame, before, after, rules, c);
      ListedHas(paths, UnexpectedChange, before, after, rules, c);
    }
  }

  method Classify(sorted: seq<string>, before: Index, after: Index, rules: map<string, Rule>)
    returns (r: Result<Comparison, CompareError>)
    requires Covers(sorted, before, after, rules)
    ensures r.Ok? <==> forall p | p in sorted :: before[p].isPrivate == after[p].isPrivate
    ensures r.Err? ==> r.error == PrivacyDiffers
    ensures r.Ok? ==>
      && r.value.expected == Listed(sorted, ExpectedChange, before, after, rules)
      && r.value.same == Listed(sorted, RequiredSame, before, after, rules)
      && r.value.unexpected == Listed(sorted, UnexpectedChange, before, after, rules)
  {
    hide ClassOf;
    var expected, same, unexpected := [], [], [];
    for i := 0 to |sorted|
      invariant Covers(sorted[..i], before, after, rules)
      invariant expected == Listed(sorted[..i], ExpectedChange, before, after, rules)
      invariant same == Listed(sorted[..i], RequiredSame, before, after, rules)
      invariant unexpected == Listed(sorted[..i], UnexpectedChange, before, after, rules)
      invariant forall j | 0 <= j < i :: before[sorted[j]].isPrivate == after[sorted[j]].isPrivate
    {
      var p := sorted[i];
      assert sorted[..i + 1][..i] == sorted[..i];
      if before[p].isPrivate != after[p].isPrivate {
        return Err(PrivacyDiffers);
      }
      var compared := Compared(p, before[p], after[p], rules[p].policy);
      match ClassOf(before[p], after[p], rules[p])
      case ExpectedChange => expected := expected + [compared];
      case RequiredSame => same := same + [compared];
      case UnexpectedChange => unexpected := unexpected + [compared];
    }
    assert sorted[..|sorted|] == sorted;
    r := Ok(Comparison(expected, same, unexpected));
  }

  // Planned rules ----------------------------------------------------------------------------------

  /** What the targets make of a path; the last one that names it counts. */
  ghost function Wanted(path: string, current: Index, targets: seq<Target>, n: nat): (Option<Digest>, Option<nat>)
    requires path in current && n <= |targets|
  {
    if n == 0 then (current[path].sha256, current[path].mode)
    else if targets[n - 1].path == path then (Some(targets[n - 1].sha256), Some(targets[n - 1].mode))
    else Wanted(path, current, targets, n - 1)
  }

  /** What a Finish is to make of a path: the state of its target, of the licensed file,
      or what is there before it. */
  ghost function Desired(path: string, current: Index, targets: seq<Target>, licensed: Digest): (Option<Digest>, Option<nat>)
    requires path in current
  {
    if path == LICENSED_PATH then (Some(licensed), Some(LICENSED_MODE)) else Wanted(path, current, targets, |targets|)
  }

  /** The record is exactly as it is wanted, in its state as well. */
  predicate There(item: Record, sha256: Option<Digest>, mode: Option<nat>) {
    item.state == (if sha256.None? then Absent else Regular) && item.sha256 == sha256 && item.mode == mode
  }

  /** The rules of a plan: the wanted state of every path, and whether it is there already. */
  ghost predicate Planned(rules: seq<Rule>, before: Index, current: Index, targets: seq<Target>, licensed: Digest) {
    && (forall i, j | 0 <= i < j < |rules| :: Less(rules[i].path, rules[j].path))
    && (forall p | p in before :: exists rule :: rule in rules && rule.path == p)
    && forall rule | rule in rules ::
         && rule.path in before && rule.path in current
         && (rule.sha256, rule.mode) == Desired(rule.path, current, targets, licensed)
         && (rule.policy.Unchanged? <==> There(before[rule.path], rule.sha256, rule.mode))
  }

  method WantedStates(current: Index, targets: seq<Target>)
    returns (r: Result<map<string, (Option<Digest>, Option<nat>)>, CompareError>)
    ensures r.Ok? <==> forall t | t in targets :: t.path in current
    ensures r.Err? ==> r.error == OutsidePolicy
    ensures r.Ok? ==> r.value.Keys == current.Keys
                      && forall p | p in current :: r.value[p] == Wanted(p, current, targets, |targets|)
  {
    var desired := map p | p in current :: (current[p].sha256, current[p].mode);
    for i := 0 to |targets|
      invariant desired.Keys == current.Keys && forall j | 0 <= j < i :: targets[j].path in current
      invariant forall p | p in desired :: desired[p] == Wanted(p, current, targets, i)
    {
      if targets[i].path !in desired {
        return Err(OutsidePolicy);
      }
      desired := desired[targets[i].path := (Some(targets[i].sha256), Some(targets[i].mode))];
    }
    r := Ok(desired);
  }

  method PlannedRules(before: Index, current: Index, targets: seq<Target>, licensedBefore: Record, licensed: Digest)
    returns (r: Result<seq<Rule>, CompareError>)
    ensures r.Ok? ==> Planned(r.value, before, current, targets, licensed)
    ensures r.Ok? <==>
      && before.Keys == current.Keys && LICENSED_PATH in current
      && (forall t | t in targets :: t.path in current)
      && current[LICENSED_PATH].isPrivate && licensedBefore.isPrivate
      && current[LICENSED_PATH].(path := licensedBefore.path) == licensedBefore
    ensures r.Err? ==>
      match r.error
      case CoverageDiffers => before.Keys != current.Keys
      case OutsidePolicy => LICENSED_PATH !in current || exists t :: t in targets && t.path !in current
      case LicensedChanged => LICENSED_PATH in current
        && !(current[LICENSED_PATH].isPrivate && licensedBefore.isPrivate
             && current[LICENSED_PATH].(path := licensedBefore.path) == licensedBefore)
      case _ => false
  {
    hide Less, Wanted;
    if before.Keys != current.Keys {
      return Err(CoverageDiffers);
    }
    var wanted :- WantedStates(current, targets);
    var licensedPath := LICENSED_PATH;
    if licensedPath !in wanted {
      return Err(OutsidePolicy);
    }
    var now := current[licensedPath];
    if now.state != licensedBefore.state || now.mode != licensedBefore.mode || now.size != licensedBefore.size
       || now.sha256 != licensedBefore.sha256 || !now.isPrivate || !licensedBefore.isPrivate {
      return Err(LicensedChanged);
    }
    var desired := wanted[licensedPath := (Some(licensed), Some(LICENSED_MODE))];
    var sorted := SortPaths(before.Keys);
    var rules := MakeRules(sorted, before, desired);
    forall p | p in before ensures exists rule :: rule in rules && rule.path == p {
      var i :| 0 <= i < |sorted| && sorted[i] == p;
      assert rules[i] in rules && rules[i].path == p;
    }
    r := Ok(rules);
  }

  method MakeRules(sorted: seq<string>, before: Index, desired: map<string, (Option<Digest>, Option<nat>)>)
    returns (rules: seq<Rule>)
    requires forall p | p in sorted :: p in before && p in desired
    ensures |rules| == |sorted|
    ensures forall i | 0 <= i < |rules| ::
      && rules[i].path == sorted[i] && (rules[i].sha256, rules[i].mode) == desired[sorted[i]]
      && (rules[i].policy.Unchanged? <==> There(before[sorted[i]], rules[i].sha256, rules[i].mode))
  {
    rules := [];
    for i := 0 to |sorted|
      invariant |rules| == i
      invariant forall j | 0 <= j < i ::
        && rules[j].path == sorted[j] && (rules[j].sha256, rules[j].mode) == desired[sorted[j]]
        && (rules[j].policy.Unchanged? <==> There(before[sorted[j]], rules[j].sha256, rules[j].mode))
    {
      var (hash, mode) := desired[sorted[i]];
      rules := rules + [Rule(sorted[i], if There(before[sorted[i]], hash, mode) then Unchanged else Expected, hash, mode)];
    }
  }

  // Agreement --------------------------------------------------------------------------------------

  /** The record is as the plan wants it. */
  ghost predicate AsDesired(item: Record, desired: (Option<Digest>, Option<nat>)) {
    if desired.0.None? then item.state.Absent?
    else item.state.Regular? && item.sha256 == desired.0 && item.mode == desired.1
  }

  /** A record changes exactly when the plan wants it in another state than it was. */
  lemma ExpectedChanges(before: Record, after: Record, rule: Rule)
    requires ValidRecord(before) && ValidRule(rule)
    requires rule.policy.Unchanged? <==> There(before, rule.sha256, rule.mode)
    ensures ClassOf(before, after, rule) != UnexpectedChange <==>
      MatchesRule(after, rule) && (rule.policy.Unchanged? ==> after == before)
  {
  }

  /** With the rules of a plan, a comparison finds nothing unexpected exactly when every
      record is as planned, and what was to stay is as it was. */
  lemma PlanAgrees(paths: seq<string>, before: Index, after: Index, current: Index, targets: seq<Target>, licensed: Digest,
                   rules: seq<Rule>, byPath: map<string, Rule>)
    requires Planned(rules, before, current, targets, licensed) && RulesFor(rules, byPath)
    requires forall p | p in before :: ValidRecord(before[p])
    requires Covers(paths, before, after, byPath) && forall p :: p in paths <==> p in before
    ensures Listed(paths, UnexpectedChange, before, after, byPath) == [] <==>
      forall p | p in before ::
        && p in after && p in current && p in byPath && AsDesired(after[p], Desired(p, current, targets, licensed))
        && (AsDesired(before[p], Desired(p, current, targets, licensed)) ==> after[p] == before[p])
  {
    hide Less, ClassOf, Desired;
    var list := Listed(paths, UnexpectedChange, before, after, byPath);
    forall p | p in before
      ensures p in after && p in current && p in byPath
      ensures ClassOf(before[p], after[p], byPath[p]) != UnexpectedChange <==>
        && AsDesired(after[p], Desired(p, current, targets, licensed))
        && (AsDesired(before[p], Desired(p, current, targets, licensed)) ==> after[p] == before[p])
    {
      assert byPath[p] in rules;
      ExpectedChanges(before[p], after[p], byPath[p]);
    }
    if list == [] {
      forall p | p in before ensures ClassOf(before[p], after[p], byPath[p]) != UnexpectedChange {
        ListedHas(paths, UnexpectedChange, before, after, byPath, Compared(p, before[p], after[p], byPath[p].policy));
      }
    } else {
      ListedHas(paths, UnexpectedChange, before, after, byPath, list[0]);
    }
  }
}

/** What an install of the licensed file leaves, as the snapshot after it sees it. */
module LicensedSnapshot {
  import opened Outcomes
  import opened ByteStrings
  import L = LicensedModel
  import S = SnapshotCompare
  import opened LicensedStore
  import opened Licensed

  /** The record of a snapshot for what is at the destination. */
  function Captured(record: L.Record, digest: Bytes -> S.Digest): S.Record {
    match record
    case Absent => S.Record(S.LICENSED_PATH, S.Absent, None, None, None, true)
    case Present(data, mode) => S.Record(S.LICENSED_PATH, S.Regular, Some(mode), Some(|data|), Some(digest(data)), true)
  }

  /** The licensed file is found as the plan wants it. */
  ghost predicate AsPlanned(record: L.Record, digest: Bytes -> S.Digest, source: Bytes, current: S.Index,
                            targets: seq<S.Target>)
    requires S.LICENSED_PATH in current
  {
    S.AsDesired(Captured(record, digest), S.Desired(S.LICENSED_PATH, current, targets, digest(source)))
  }

  /** A completed install leaves the licensed file as the plan wants it; but a file that is kept
      stays as it is, and then it is so exactly when it had the mode of the plan before. */
  method InstallAsPlanned(fs: Store, action: L.Action, digest: Bytes -> S.Digest, current: S.Index, targets: seq<S.Target>)
    returns (r: Reply<()>)
    requires fs.Valid() && S.LICENSED_PATH in current
    modifies fs
    ensures r.Done? && !action.disposition.Keep? ==>
      AsPlanned(L.RecordOf(fs.names, L.Destination), digest, action.source, current, targets)
    ensures r.Done? && action.disposition.Keep? && L.Destination in old(fs.names) ==>
      (AsPlanned(L.RecordOf(fs.names, L.Destination), digest, action.source, current, targets) <==>
        && L.RecordOf(old(fs.names), L.Destination).Present?
        && L.RecordOf(old(fs.names), L.Destination).mode == L.SOURCE_MODE)
  {
    r := InstallThreadingCopy(fs, action, action.source, None);
  }

  /** A kept file of another mode: no comparison with the plan can be passed. */
  lemma KeptOtherwise(
    names: L.Directory, digest: Bytes -> S.Digest, source: Bytes, paths: seq<string>, before: S.Index, after: S.Index,
    current: S.Index, targets: seq<S.Target>, rules: seq<S.Rule>, byPath: map<string, S.Rule>)
    requires S.Planned(rules, before, current, targets, digest(source)) && S.RulesFor(rules, byPath)
    requires forall p | p in before :: S.ValidRecord(before[p])
    requires S.Covers(paths, before, after, byPath) && forall p :: p in paths <==> p in before
    requires S.LICENSED_PATH in before && S.LICENSED_PATH in after
    requires after[S.LICENSED_PATH] == Captured(L.RecordOf(names, L.Destination), digest)
    requires L.RecordOf(names, L.Destination).Present? && L.RecordOf(names, L.Destination).mode != L.SOURCE_MODE
    ensures S.Listed(paths, S.UnexpectedChange, before, after, byPath) != []
  {
    S.PlanAgrees(paths, before, after, current, targets, digest(source), rules, byPath);
  }
}

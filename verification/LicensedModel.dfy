/** The directory, the journal and the reachable states of the licensed-file
    transaction.  A SHA-256 stands for the bytes it was computed from. */
module LicensedModel {
  import opened Outcomes
  import opened ByteStrings

  const MAX_LICENSED_SIZE: nat := 256 * 1024 * 1024
  const MIN_PE_SIZE: nat := 0x40
  const READ_SIZE: nat := 1024 * 1024
  const SOURCE_MODE: nat := 0x1A4 // 0o644

  /** The names the transaction uses beside the destination.  They all carry a
      random token, so that names of different transactions differ. */
  datatype Name =
    | Destination
    | Stage(token: nat)
    | Backup(token: nat)
    | Held(token: nat)
    | Recovery(token: nat)
    | Partial(token: nat)
    | Foreign(leaf: string)

  predicate HasToken(name: Name, token: nat) {
    match name
    case Destination => false
    case Foreign(_) => false
    case Stage(t) => t == token
    case Backup(t) => t == token
    case Held(t) => t == token
    case Recovery(t) => t == token
    case Partial(t) => t == token
  }

  /** The names that carry a token are those that its transaction makes. */
  lemma TokenNames(name: Name, token: nat)
    ensures HasToken(name, token) <==>
      name in {Stage(token), Backup(token), Held(token), Recovery(token), Partial(token)}
  {
  }

  /** An inode with its contents; a symlink, a directory or a device is Special. */
  datatype File = Regular(id: nat, data: Bytes, mode: nat) | Special(id: nat)

  type Directory = map<Name, File>

  datatype Record = Absent | Present(data: Bytes, mode: nat)

  datatype Disposition = Install | Replace | Keep

  datatype Action = Action(source: Bytes, before: Record, disposition: Disposition)

  datatype Status = Planned | Installed | RolledBack | RecoveryRequired

  datatype Journal = Journal(action: Action, token: nat, status: Status)

  /** What happens at one system call: nothing, the death of the process, or a
      file put by somebody else under a name that was free. */
  datatype Event = Proceed | Kill | Arrive(name: Name, file: File)

  datatype Error =
    | ActionInvalid
    | InputInvalid
    | InputChanged
    | JournalInvalid
    | JournalMismatch
    | NeedsRecovery
    | AlreadyRolledBack
    | NotRegular
    | DestinationChanged
    | ModeChanged
    | StageConflict
    | BackupConflict
    | RecoveryConflict
    | FileChanged
    | RollbackConflict
    | RestoreChanged
    | SystemError

  // The environment ---------------------------------------------------------

  ghost predicate Quiet(script: seq<Event>) {
    forall e | e in script :: !e.Arrive?
  }

  /** What others put there before the next system call. */
  ghost function Arrived(script: seq<Event>, names: Directory): Directory {
    if script == [] || !script[0].Arrive? then names
    else Arrived(script[1..], if script[0].name in names then names else names[script[0].name := script[0].file])
  }

  ghost predicate Unkilled(script: seq<Event>) {
    forall e | e in script :: !e.Kill?
  }

  /** The events that are left after some of them happened. */
  ghost predicate Advances(before: seq<Event>, after: seq<Event>) {
    && |after| <= |before|
    && (Quiet(before) ==> Quiet(after))
    && (Unkilled(before) ==> Unkilled(after))
  }

  /** From draw number n on, the random tokens are new to the directory. */
  ghost predicate Lucky(draw: nat -> nat, n: nat, names: Directory) {
    && (forall i: nat, j: nat | n <= i < j :: draw(i) != draw(j))
    && (forall i: nat, name | n <= i && name in names :: !HasToken(name, draw(i)))
  }

  // Directories ---------------------------------------------------------------

  ghost predicate Extends(before: Directory, after: Directory) {
    forall n | n in before :: n in after && after[n] == before[n]
  }

  ghost predicate Holds(names: Directory, file: File) {
    exists n :: n in names && names[n] == file
  }

  /** What is under this name stays there. */
  ghost predicate StaysAt(before: Directory, after: Directory, name: Name) {
    name in before ==> name in after && after[name] == before[name]
  }

  /** Neither the source, nor the file that the plan found, is at the destination. */
  ghost predicate ForeignThere(names: Directory, action: Action) {
    && Destination in names
    && (names[Destination].Regular? ==>
          names[Destination].data != action.source && Present(names[Destination].data, names[Destination].mode) != action.before)
  }

  /** Every file is still there, with its bytes and mode, under some name. */
  ghost predicate Kept(before: Directory, after: Directory) {
    forall n | n in before :: Holds(after, before[n])
  }

  /** Nothing changed, apart from spare and from preserved partial stages. */
  ghost predicate SameBeside(before: Directory, after: Directory, spare: Name) {
    forall n: Name | !n.Partial? && n != spare :: Entry(after, n) == Entry(before, n)
  }

  /** The file under one name moved to a name that was free. */
  ghost predicate Renamed(before: Directory, after: Directory, from: Name, to: Name) {
    && to in after && from !in after && to !in before
    && (from in before ==> after[to] == before[from])
    && (forall n | n in before && n != from :: n in after && after[n] == before[n])
  }

  function RecordOf(names: Directory, name: Name): Record {
    if name in names && names[name].Regular?
    then Present(names[name].data, names[name].mode)
    else Absent
  }

  function Entry(names: Directory, name: Name): Option<File> {
    if name in names then Some(names[name]) else None
  }

  // Actions and records -------------------------------------------------------

  predicate BeforeIsSource(action: Action) {
    action.before.Present? && action.before.data == action.source
  }

  /** A disposition that fits what was found at the destination. */
  predicate WellFormed(action: Action) {
    && |action.source| <= MAX_LICENSED_SIZE
    && match action.disposition
       case Install => action.before.Absent?
       case Keep => BeforeIsSource(action)
       case Replace => action.before.Present? && !BeforeIsSource(action)
  }

  /** What a plan makes of a source and of what it found at the destination. */
  function PlanOf(source: Bytes, found: Record): Action {
    Action(source, found, match found
                          case Absent => Install
                          case Present(data, _) => if data == source then Keep else Replace)
  }

  /** The well-formed actions are those of some plan. */
  lemma WellFormedIsPlanned(action: Action)
    ensures WellFormed(action) <==> |action.source| <= 0x1000_0000 && action == PlanOf(action.source, action.before)
  {
  }

  predicate MatchesSource(record: Record, journal: Journal) {
    record.Present? && record.data == journal.action.source
  }

  predicate MatchesStagedSource(record: Record, journal: Journal) {
    MatchesSource(record, journal) && record.mode == SOURCE_MODE
  }

  // Reachable states ------------------------------------------------------------

  /** The destination carries the source, and a replaced file is in the backup. */
  ghost predicate Complete(names: Directory, journal: Journal) {
    if journal.action.disposition.Keep? then
      MatchesSource(RecordOf(names, Destination), journal)
    else
      && MatchesStagedSource(RecordOf(names, Destination), journal)
      && (journal.action.disposition.Replace? ==>
            RecordOf(names, Backup(journal.token)) == journal.action.before)
  }

  /** original is the file that the action found at the destination. */
  ghost predicate Plans(action: Action, original: Option<File>) {
    && WellFormed(action)
    && MIN_PE_SIZE <= |action.source|
    && match original
       case None => action.before.Absent?
       case Some(file) => file.Regular? && action.before == Present(file.data, file.mode)
  }

  ghost predicate Unmoved(names: Directory, token: nat, original: Option<File>) {
    Entry(names, Destination) == original && Backup(token) !in names
  }

  ghost predicate BackedUp(names: Directory, token: nat, original: Option<File>) {
    original.Some? && Destination !in names && Entry(names, Backup(token)) == original
  }

  ghost predicate Published(names: Directory, journal: Journal, original: Option<File>) {
    && MatchesStagedSource(RecordOf(names, Destination), journal)
    && Stage(journal.token) !in names
    && Entry(names, Backup(journal.token))
       == (if journal.action.disposition.Replace? then original else None)
  }

  /** A stage that carries all of the source carries it at the final mode. */
  ghost predicate StageSound(names: Directory, journal: Journal) {
    Stage(journal.token) in names ==>
      && names[Stage(journal.token)].Regular?
      && (MatchesSource(RecordOf(names, Stage(journal.token)), journal) ==>
            MatchesStagedSource(RecordOf(names, Stage(journal.token)), journal))
  }

  ghost predicate StageComplete(names: Directory, journal: Journal) {
    MatchesStagedSource(RecordOf(names, Stage(journal.token)), journal)
  }

  /** The states that any number of killed installs can leave. */
  ghost predicate InstallReach(
    action: Action, original: Option<File>, names: Directory, journal: Option<Journal>)
  {
    && Plans(action, original)
    && match journal
       case None => Entry(names, Destination) == original
       case Some(j) =>
         && j.action == action
         && (j.status.Planned? || j.status.Installed?)
         && Held(j.token) !in names
         && Recovery(j.token) !in names
         && StageSound(names, j)
         && if action.disposition.Keep? then
              Entry(names, Destination) == original
            else
              || (j.status.Planned? && Unmoved(names, j.token, original))
              || (j.status.Planned? && action.disposition.Replace?
                  && BackedUp(names, j.token, original) && StageComplete(names, j))
              || Published(names, j, original)
  }

  /** The states that killed installs, and then any number of killed rollbacks,
      can leave. */
  ghost predicate RollbackReach(
    action: Action, original: Option<File>, names: Directory, journal: Option<Journal>)
  {
    && Plans(action, original)
    && journal.Some?
    && var j := journal.value;
      && j.action == action
      && !j.status.RecoveryRequired?
      && Recovery(j.token) !in names
      && if action.disposition.Keep? then
           Entry(names, Destination) == original
         else
           || Unmoved(names, j.token, original)
           || (action.disposition.Replace? && BackedUp(names, j.token, original)
               && !j.status.RolledBack?)
           || (Published(names, j, original) && Held(j.token) !in names
               && !j.status.RolledBack?)
  }

  /** Rollback may start wherever killed installs stopped. */
  lemma InstallReachIsRollbackReach(
    action: Action, original: Option<File>, names: Directory, journal: Option<Journal>)
    requires InstallReach(action, original, names, journal) && journal.Some?
    ensures RollbackReach(action, original, names, journal)
  {
  }

  /** In a reachable state the source is at the destination only when published,
      so never at a wrong mode and never without the backup. */
  lemma SourceMeansPublished(
    action: Action, original: Option<File>, names: Directory, journal: Option<Journal>)
    requires InstallReach(action, original, names, journal) && journal.Some?
    requires !action.disposition.Keep?
    ensures MatchesSource(RecordOf(names, Destination), journal.value)
            <==> Published(names, journal.value, original)
    ensures Published(names, journal.value, original) || journal.value.status.Planned?
  {
  }

  /** Work on the stage keeps a state reachable as long as it spoils no finished
      stage. */
  lemma StagingKeepsReach(
    action: Action, original: Option<File>, before: Directory, after: Directory, j: Journal)
    requires InstallReach(action, original, before, Some(j))
    requires !action.disposition.Keep? && !Published(before, j, original)
    requires SameBeside(before, after, Stage(j.token)) && StageSound(after, j)
    requires StageComplete(before, j) ==> after == before
    ensures InstallReach(action, original, after, Some(j))
    ensures Entry(after, Destination) == Entry(before, Destination)
    ensures Entry(after, Backup(j.token)) == Entry(before, Backup(j.token))
  {
    assert Entry(after, Destination) == Entry(before, Destination);
    assert Entry(after, Backup(j.token)) == Entry(before, Backup(j.token));
    assert Entry(after, Held(j.token)) == Entry(before, Held(j.token));
    assert Entry(after, Recovery(j.token)) == Entry(before, Recovery(j.token));
  }

  /** What rollback finds at the destination tells which state it is in. */
  lemma RollbackCases(
    action: Action, original: Option<File>, names: Directory, journal: Option<Journal>)
    requires RollbackReach(action, original, names, journal)
    requires !action.disposition.Keep? && !journal.value.status.RolledBack?
    ensures Destination in names ==> names[Destination].Regular?
    ensures var j := journal.value; var current := RecordOf(names, Destination);
      if MatchesSource(current, j) then
        current.mode == SOURCE_MODE && Held(j.token) !in names && Published(names, j, original)
      else if current.Present? then
        action.disposition.Replace? && current == action.before && Unmoved(names, j.token, original)
      else if action.disposition.Replace? then
        BackedUp(names, j.token, original) && RecordOf(names, Backup(j.token)) == action.before
      else
        original.None? && Backup(j.token) !in names
  {
  }

  // Lemmas about directories -----------------------------------------------------

  lemma KeptTransitive(a: Directory, b: Directory, c: Directory)
    requires Kept(a, b) && Kept(b, c)
    ensures Kept(a, c)
  {
    forall n | n in a ensures Holds(c, a[n]) {
      var m :| m in b && b[m] == a[n];
      assert Holds(c, b[m]);
    }
  }

  /** A rename that replaces nothing loses nothing. */
  lemma RenamedKept(before: Directory, after: Directory, from: Name, to: Name)
    requires Renamed(before, after, from, to)
    ensures Kept(before, after)
  {
    forall n | n in before ensures Holds(after, before[n]) {
      if n != from {
        assert n in after && after[n] == before[n];
      } else {
        assert after[to] == before[from];
      }
    }
  }

  lemma ExtendsKept(a: Directory, b: Directory)
    requires Extends(a, b)
    ensures Kept(a, b)
  {
    forall n | n in a ensures Holds(b, a[n]) {
      assert n in b && b[n] == a[n];
    }
  }
}

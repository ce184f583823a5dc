/** Install and roll back one private licensed file, resumable after a kill
    between any two system calls. */
module Licensed {
  import opened Outcomes
  import opened ByteStrings
  import opened LicensedModel
  import opened LicensedStore

  /** What every operation keeps, whatever happens while it runs. */
  twostate predicate Safe<T>(fs: Store, new r: Reply<T>)
    reads fs
  {
    && fs.Valid()
    && Advances(old(fs.script), fs.script)
    && Kept(old(fs.names), fs.names)
    && (r.Killed? ==> |fs.script| < |old(fs.script)| && !Unkilled(old(fs.script)))
  }

  // Staging ---------------------------------------------------------------------

  /** Set the stage aside under a fresh name: it is evidence, not rubbish. */
  method PreservePartialStage(fs: Store, j: Journal) returns (r: Reply<()>)
    requires fs.Valid() && Stage(j.token) in fs.names
    modifies fs
    ensures StaysAt(old(fs.names), fs.names, Destination)
    ensures Safe(fs, r) && fs.journal == old(fs.journal)
    ensures fs.drawn <= old(fs.drawn) + 100 && (r == Failed(RecoveryConflict) ==> fs.drawn == old(fs.drawn) + 100)
    ensures r.Done? ==> Stage(j.token) !in fs.names
    ensures r.Done? ==> |fs.script| < |old(fs.script)| || fs.script == old(fs.script) == []
    ensures old(fs.Calm()) ==>
      && fs.Calm() && !r.Failed?
      && SameBeside(old(fs.names), fs.names, Stage(j.token))
      && (r.Done? || fs.names == old(fs.names))
    ensures r.Failed? ==> r.error in {RecoveryConflict, SystemError}
  {
    hide Kept;
    ghost var before := fs.names;
    for tries := 0 to 100
      invariant fs.Valid() && Advances(old(fs.script), fs.script) && fs.journal == old(fs.journal)
      invariant Extends(before, fs.names)
      invariant fs.drawn == old(fs.drawn) + tries
      invariant tries > 0 ==> !old(fs.Calm())
      invariant tries == 0 ==> fs.names == before && fs.script == old(fs.script) && fs.drawn == old(fs.drawn)
    {
      ghost var earlier := fs.names;
      var token := fs.Draw();
      var renamed := fs.RenameNoReplace(Stage(j.token), Partial(token));
      ExtendsKept(before, earlier);
      KeptTransitive(before, earlier, fs.names);
      if renamed.Done? && !renamed.value {
        continue;
      }
      return if renamed.Done? then Done(()) else renamed.PropagateFailure();
    }
    ExtendsKept(before, fs.names);
    r := Failed(RecoveryConflict);
  }

  /** Write all bytes to the open file; a kill leaves the first count of them. */
  method WriteAll(fs: Store, name: Name, bytes: Bytes) returns (r: Reply<()>, ghost count: nat)
    requires fs.Valid() && name in fs.names && fs.names[name].Regular?
    modifies fs
    ensures fs.Valid() && Advances(old(fs.script), fs.script) && fs.journal == old(fs.journal)
    ensures r.Killed? ==> |fs.script| < |old(fs.script)| && !Unkilled(old(fs.script))
    ensures !r.Failed? && count <= |bytes| && (r.Done? ==> count == |bytes|)
    ensures name in fs.names
    ensures fs.names[name] == old(fs.names)[name].(data := old(fs.names)[name].data + bytes[..count])
    ensures forall n | n in old(fs.names) && n != name :: n in fs.names && fs.names[n] == old(fs.names)[n]
    ensures Quiet(old(fs.script)) ==> fs.names.Keys == old(fs.names).Keys
    ensures fs.drawn == old(fs.drawn)
  {
    var done: nat := 0;
    count := 0;
    while done < |bytes|
      invariant count == done <= |bytes|
      invariant fs.Valid() && Advances(old(fs.script), fs.script) && fs.journal == old(fs.journal)
      invariant name in fs.names
      invariant fs.names[name] == old(fs.names)[name].(data := old(fs.names)[name].data + bytes[..done])
      invariant forall n | n in old(fs.names) && n != name :: n in fs.names && fs.names[n] == old(fs.names)[n]
      invariant Quiet(old(fs.script)) ==> fs.names.Keys == old(fs.names).Keys
      invariant fs.drawn == old(fs.drawn)
    {
      var written := fs.Write(name, bytes[done..]);
      if !written.Done? {
        return written.PropagateFailure(), count;
      }
      assert bytes[..done] + bytes[done..][..written.value] == bytes[..done + written.value];
      done := done + written.value;
      count := done;
    }
    r := Done(());
  }

  /** Give the new stage its mode and then, block by block, its contents. */
  method FillStage(fs: Store, source: Bytes, j: Journal) returns (r: Reply<()>)
    requires fs.Valid() && Stage(j.token) in fs.names
    requires fs.names[Stage(j.token)].Regular? && fs.names[Stage(j.token)].data == []
    modifies fs
    ensures fs.Valid() && Advances(old(fs.script), fs.script) && fs.journal == old(fs.journal)
    ensures r.Killed? ==> |fs.script| < |old(fs.script)| && !Unkilled(old(fs.script))
    ensures forall n | n in old(fs.names) && n != Stage(j.token) :: n in fs.names && fs.names[n] == old(fs.names)[n]
    ensures Quiet(old(fs.script)) ==> fs.names.Keys == old(fs.names).Keys
    ensures fs.drawn == old(fs.drawn)
    ensures r.Done? ==> StageComplete(fs.names, j)
    ensures source == j.action.source && MIN_PE_SIZE <= |source| <= MAX_LICENSED_SIZE ==>
      !r.Failed? && StageSound(fs.names, j)
    ensures r.Failed? ==>
      if |source| > MAX_LICENSED_SIZE then r.error == InputInvalid else r.error == InputChanged && source != j.action.source
  {
    var stage := Stage(j.token);
    var _ :- fs.Chmod(stage, SOURCE_MODE);
    var size: nat := 0;
    while size < |source|
      invariant size <= |source| && size <= MAX_LICENSED_SIZE
      invariant fs.Valid() && Advances(old(fs.script), fs.script) && fs.journal == old(fs.journal)
      invariant stage in fs.names && fs.names[stage].Regular?
      invariant fs.names[stage].mode == SOURCE_MODE && fs.names[stage].data == source[..size]
      invariant forall n | n in old(fs.names) && n != stage :: n in fs.names && fs.names[n] == old(fs.names)[n]
      invariant Quiet(old(fs.script)) ==> fs.names.Keys == old(fs.names).Keys
      invariant fs.drawn == old(fs.drawn)
    {
      var end := if size + READ_SIZE <= |source| then size + READ_SIZE else |source|;
      if end > MAX_LICENSED_SIZE {
        return Failed(InputInvalid);
      }
      var written, count := WriteAll(fs, stage, source[size..end]);
      assert source[..size] + source[size..end][..count] == source[..size + count];
      if !written.Done? {
        return written.PropagateFailure();
      }
      size := end;
    }
    assert source[..size] == source;
    if source != j.action.source {
      return Failed(InputChanged);
    }
    r := Done(());
  }

  datatype StageState = Created | Finished | SetAside

  /** Reserve the stage; or find it finished; or set an unfinished one aside. */
  method ReserveStage(fs: Store, j: Journal) returns (r: Reply<StageState>)
    requires fs.Valid()
    modifies fs
    ensures StaysAt(old(fs.names), fs.names, Destination)
    ensures Safe(fs, r) && fs.journal == old(fs.journal)
    ensures r.Done? ==> match r.value
      case Finished => StageComplete(fs.names, j)
      case SetAside =>
        && Stage(j.token) !in fs.names
        && (|fs.script| < |old(fs.script)| || Stage(j.token) in old(fs.names))
      case Created =>
        && Stage(j.token) in fs.names && fs.names[Stage(j.token)].Regular?
        && fs.names[Stage(j.token)].data == [] && Extends(old(fs.names), fs.names)
        && Stage(j.token) !in old(fs.names)
    ensures old(fs.Calm()) && old(fs.journal) == Some(j) && StageSound(old(fs.names), j)
            && MIN_PE_SIZE <= |j.action.source| ==>
      && fs.Calm() && !r.Failed?
      && SameBeside(old(fs.names), fs.names, Stage(j.token)) && StageSound(fs.names, j)
      && (StageComplete(old(fs.names), j) ==> fs.names == old(fs.names) && !(r.Done? && !r.value.Finished?))
    ensures r.Failed? ==> r.error in {StageConflict, RecoveryConflict, NotRegular, SystemError}
  {
    hide Kept;
    var stage := Stage(j.token);
    ghost var before := fs.names;
    var created := fs.CreateExclusive(stage);
    ExtendsKept(before, fs.names);
    if !created.Done? {
      return created.PropagateFailure();
    }
    if created.value {
      return Done(Created);
    }
    var found := fs.OpenRecord(stage);
    ExtendsKept(before, fs.names);
    if !found.Done? {
      return found.PropagateFailure();
    }
    if MatchesStagedSource(found.value, j) {
      return Done(Finished);
    }
    if MatchesSource(found.value, j) {
      return Failed(StageConflict);
    }
    ghost var partial := fs.names;
    var preserved := PreservePartialStage(fs, j);
    KeptTransitive(before, partial, fs.names);
    r := if preserved.Done? then Done(SetAside) else preserved.PropagateFailure();
  }

  /** Leave a complete stage, keeping every other file that had its name. */
  method CopyStage(fs: Store, source: Bytes, j: Journal) returns (r: Reply<()>)
    requires fs.Valid()
    modifies fs
    ensures StaysAt(old(fs.names), fs.names, Destination)
    ensures Safe(fs, r) && fs.journal == old(fs.journal)
    ensures r.Done? ==> StageComplete(fs.names, j)
    ensures old(fs.Calm()) && old(fs.journal) == Some(j) && StageSound(old(fs.names), j)
            && source == j.action.source && MIN_PE_SIZE <= |source| <= MAX_LICENSED_SIZE ==>
      && fs.Calm() && !r.Failed?
      && SameBeside(old(fs.names), fs.names, Stage(j.token)) && StageSound(fs.names, j)
      && (StageComplete(old(fs.names), j) ==> fs.names == old(fs.names))
  {
    hide Kept, StageComplete;
    ghost var before := fs.names;
    ghost var usual := old(fs.Calm()) && old(fs.journal) == Some(j) && StageSound(before, j)
      && source == j.action.source && MIN_PE_SIZE <= |source| <= MAX_LICENSED_SIZE;
    ExtendsKept(before, before);
    while true
      invariant fs.Valid() && Advances(old(fs.script), fs.script) && fs.journal == old(fs.journal)
      invariant Kept(before, fs.names)
      invariant StaysAt(before, fs.names, Destination)
      invariant usual ==>
        && fs.Calm() && SameBeside(before, fs.names, Stage(j.token)) && StageSound(fs.names, j)
        && (StageComplete(before, j) ==> fs.names == before)
      decreases |fs.script|, if Stage(j.token) in fs.names then 1 else 0
    {
      ghost var earlier := fs.names;
      var reserved := ReserveStage(fs, j);
      KeptTransitive(before, earlier, fs.names);
      if !reserved.Done? {
        return reserved.PropagateFailure();
      }
      match reserved.value
      case Finished => return Done(());
      case SetAside =>
      case Created =>
        r := FillStage(fs, source, j);
        ExtendsKept(earlier, fs.names);
        KeptTransitive(before, earlier, fs.names);
        return;
    }
  }

  // Moving files ------------------------------------------------------------------

  /** Take an unexpected destination out of the way and stop the transaction. */
  method QuarantineDestination(fs: Store, j: Journal) returns (r: Reply<()>)
    requires fs.Valid()
    modifies fs
    ensures Safe(fs, r)
    ensures fs.journal == old(fs.journal) || fs.journal == Some(j.(status := RecoveryRequired))
    ensures fs.journal != old(fs.journal) ==> Recovery(j.token) in fs.names
    ensures Destination in old(fs.names) && r.Done? ==>
      && Entry(fs.names, Recovery(j.token)) == Some(old(fs.names)[Destination])
      && fs.journal == Some(j.(status := RecoveryRequired))
    ensures Quiet(old(fs.script)) && Recovery(j.token) !in old(fs.names)
            && Destination in old(fs.names) && old(fs.names)[Destination].Regular? ==>
      !r.Failed?
    ensures Quiet(old(fs.script)) && r.Done? && Destination in old(fs.names) ==>
      fs.names == old(fs.names)[Recovery(j.token) := old(fs.names)[Destination]] - {Destination}
    ensures r.Failed? ==> r.error in {NotRegular, RecoveryConflict}
  {
    ghost var before := fs.names;
    var current := fs.OpenRecord(Destination);
    ExtendsKept(before, fs.names);
    if !current.Done? {
      return current.PropagateFailure();
    }
    if current.value.Absent? {
      return Done(());
    }
    ghost var found := fs.names;
    var renamed := fs.RenameNoReplace(Destination, Recovery(j.token));
    KeptTransitive(before, found, fs.names);
    if !renamed.Done? {
      return renamed.PropagateFailure();
    }
    if !renamed.value {
      return Failed(RecoveryConflict);
    }
    ghost var moved := fs.names;
    r := fs.WriteJournal(j.(status := RecoveryRequired));
    KeptTransitive(before, moved, fs.names);
  }

  /** Rename the finished stage onto the destination and record it. */
  method PublishStage(fs: Store, j: Journal) returns (r: Reply<()>)
    requires fs.Valid()
    modifies fs
    ensures StaysAt(old(fs.names), fs.names, Destination)
    ensures Safe(fs, r)
    ensures r.Done? ==>
      && fs.journal == Some(j.(status := Installed))
      && MatchesStagedSource(RecordOf(fs.names, Destination), j)
      && (Backup(j.token) in old(fs.names) ==>
            Entry(fs.names, Backup(j.token)) == Entry(old(fs.names), Backup(j.token)))
    ensures !r.Done? ==> fs.journal == old(fs.journal)
    ensures old(fs.Calm()) && StageComplete(old(fs.names), j) && Destination !in old(fs.names)
            && old(fs.journal.Some? && fs.journal.value.token == j.token) ==>
      && fs.Calm() && !r.Failed?
      && (fs.names == old(fs.names)
          || fs.names == old(fs.names)[Destination := old(fs.names)[Stage(j.token)]] - {Stage(j.token)})
      && (r.Done? ==> fs.names != old(fs.names))
    ensures r.Failed? ==> r.error in {StageConflict, DestinationChanged, NotRegular, SystemError}
    ensures r == Failed(DestinationChanged) ==> Destination in fs.names
  {
    hide Kept, Extends, Renamed;
    ghost var before := fs.names;
    var stage := fs.OpenRecord(Stage(j.token));
    ExtendsKept(before, fs.names);
    if !stage.Done? {
      return stage.PropagateFailure();
    }
    if !MatchesStagedSource(stage.value, j) {
      return Failed(StageConflict);
    }
    ghost var found := fs.names;
    var renamed := fs.RenameNoReplace(Stage(j.token), Destination);
    KeptTransitive(before, found, fs.names);
    MovedOn(before, found, fs.names, Stage(j.token), Destination);
    if !renamed.Done? {
      return renamed.PropagateFailure();
    }
    if !renamed.value {
      return Failed(DestinationChanged);
    }
    ghost var moved := fs.names;
    r := fs.WriteJournal(j.(status := Installed));
    KeptTransitive(before, moved, fs.names);
  }

  /** Rename the recorded file to the backup name. */
  method BackUp(fs: Store, j: Journal) returns (r: Reply<()>)
    requires fs.Valid() && RecordOf(fs.names, Destination) == j.action.before && j.action.before.Present?
    modifies fs
    ensures Safe(fs, r) && fs.journal == old(fs.journal)
    ensures r.Done? ==> RecordOf(fs.names, Backup(j.token)) == j.action.before
    ensures Stage(j.token) in old(fs.names) ==>
      Entry(fs.names, Stage(j.token)) == Entry(old(fs.names), Stage(j.token))
    ensures old(fs.Calm()) && old(fs.journal.Some? && fs.journal.value.token == j.token)
            && Backup(j.token) !in old(fs.names) ==>
      && fs.Calm() && !r.Failed?
      && (fs.names == old(fs.names)
          || fs.names == old(fs.names)[Backup(j.token) := old(fs.names)[Destination]] - {Destination})
      && (r.Done? ==> fs.names != old(fs.names))
    ensures r.Failed? ==> if r.error == BackupConflict then Backup(j.token) in fs.names else r.error == SystemError
  {
    hide Kept;
    var renamed := fs.RenameNoReplace(Destination, Backup(j.token));
    if !renamed.Done? {
      return renamed.PropagateFailure();
    }
    r := if renamed.value then Done(()) else Failed(BackupConflict);
  }

  /** Move the file that is being replaced to the backup name, once. */
  method MoveToBackup(fs: Store, j: Journal) returns (r: Reply<()>)
    requires fs.Valid() && j.action.before.Present?
    modifies fs
    ensures ForeignThere(old(fs.names), j.action) ==> StaysAt(old(fs.names), fs.names, Destination)
    ensures Safe(fs, r) && fs.journal == old(fs.journal)
    ensures r.Done? ==> RecordOf(fs.names, Backup(j.token)) == j.action.before
    ensures Stage(j.token) in old(fs.names) ==>
      Entry(fs.names, Stage(j.token)) == Entry(old(fs.names), Stage(j.token))
    ensures old(fs.Calm()) && old(fs.journal.Some? && fs.journal.value.token == j.token)
            && Backup(j.token) !in old(fs.names) && RecordOf(old(fs.names), Destination) == j.action.before ==>
      && fs.Calm() && !r.Failed?
      && (fs.names == old(fs.names)
          || fs.names == old(fs.names)[Backup(j.token) := old(fs.names)[Destination]] - {Destination})
      && (r.Done? ==> fs.names != old(fs.names))
    ensures old(fs.Calm()) && Destination !in old(fs.names)
            && RecordOf(old(fs.names), Backup(j.token)) == j.action.before ==>
      fs.Calm() && !r.Failed? && fs.names == old(fs.names)
    ensures r.Failed? ==> r.error in {BackupConflict, NotRegular, SystemError}
  {
    hide Kept;
    ghost var before := fs.names;
    var backup := fs.OpenRecord(Backup(j.token));
    ExtendsKept(before, fs.names);
    if !backup.Done? {
      return backup.PropagateFailure();
    }
    var current := fs.OpenRecord(Destination);
    ExtendsKept(before, fs.names);
    if !current.Done? {
      return current.PropagateFailure();
    }
    if backup.value.Absent? && current.value == j.action.before {
      ghost var found := fs.names;
      r := BackUp(fs, j);
      KeptTransitive(before, found, fs.names);
      return;
    }
    if backup.value != j.action.before || (current.value.Present? && !MatchesSource(current.value, j)) {
      return Failed(BackupConflict);
    }
    r := Done(());
  }

  /** Rename a file whose record is the expected one. */
  method MoveBound(fs: Store, from: Name, to: Name, expected: Record) returns (r: Reply<()>)
    requires fs.Valid() && from != to && expected.Present?
    modifies fs
    ensures Safe(fs, r) && fs.journal == old(fs.journal)
    ensures r.Done? ==>
      && to in fs.names && from !in fs.names && RecordOf(fs.names, to) == expected
      && (from in old(fs.names) ==> fs.names[to] == old(fs.names)[from])
      && (forall n | n in old(fs.names) && n != from :: n in fs.names && fs.names[n] == old(fs.names)[n])
    ensures !r.Done? ==> Extends(old(fs.names), fs.names)
    ensures r.Failed? ==> r.error in {FileChanged, RollbackConflict, NotRegular, SystemError}
    ensures Quiet(old(fs.script)) && RecordOf(old(fs.names), from) == expected && to !in old(fs.names) ==>
      && !r.Failed?
      && fs.names == (if r.Done? then old(fs.names)[to := old(fs.names)[from]] - {from} else old(fs.names))
    ensures fs.drawn == old(fs.drawn)
    ensures r == Failed(RollbackConflict) ==> to in fs.names
    ensures r == Failed(FileChanged) ==> RecordOf(fs.names, from) != expected
  {
    hide Kept, Extends, Renamed;
    ghost var before := fs.names;
    ExtendsSelf(before);
    var record := fs.OpenRecord(from);
    ExtendsKept(before, fs.names);
    if !record.Done? {
      return record.PropagateFailure();
    }
    if record.value.Absent? {
      return Failed(SystemError);
    }
    if record.value != expected {
      return Failed(FileChanged);
    }
    ghost var found := fs.names;
    var renamed := fs.RenameNoReplace(from, to);
    KeptTransitive(before, found, fs.names);
    MovedOn(before, found, fs.names, from, to);
    if !renamed.Done? {
      return renamed.PropagateFailure();
    }
    r := if renamed.value then Done(()) else Failed(RollbackConflict);
  }

  lemma ExtendsSelf(names: Directory)
    ensures Extends(names, names)
  {
  }

  lemma MovedOn(a: Directory, b: Directory, c: Directory, from: Name, to: Name)
    requires Extends(a, b)
    ensures Extends(b, c) ==> Extends(a, c)
    ensures Renamed(b, c, from, to) ==>
      && to in c && from !in c && (from in b ==> RecordOf(c, to) == RecordOf(b, from))
      && (from in a ==> c[to] == a[from])
      && (forall n | n in a && n != from :: n in c && c[n] == a[n])
  {
  }

  // Install -------------------------------------------------------------------------

  method LoadOrCreateJournal(fs: Store, action: Action) returns (r: Reply<Journal>)
    requires fs.Valid()
    modifies fs
    ensures Safe(fs, r) && Extends(old(fs.names), fs.names)
    ensures Quiet(old(fs.script)) ==> fs.names == old(fs.names)
    ensures r.Done? ==> fs.journal == Some(r.value) && r.value.action == action
    ensures old(fs.journal).Some? || !r.Done? ==> fs.journal == old(fs.journal)
    ensures old(fs.journal).None? && r.Done? ==>
      r.value == Journal(action, fs.draw(old(fs.drawn)), Planned)
    ensures old(fs.Calm()) ==> fs.Calm()
    ensures old(fs.Calm()) && old(fs.journal).None? && r.Done? ==>
      forall n | n in fs.names :: !HasToken(n, r.value.token)
    ensures old(fs.journal).Some? ==> !r.Killed? && fs.names == old(fs.names)
    ensures r.Failed? <==>
      old(fs.journal).Some? && (!WellFormed(old(fs.journal).value.action)
                                || old(fs.journal).value.action != action)
    ensures r.Failed? ==>
      r.error == if WellFormed(old(fs.journal).value.action) then JournalMismatch else JournalInvalid
  {
    ExtendsKept(fs.names, fs.names);
    match fs.journal
    case None =>
      var token := fs.Draw();
      var j := Journal(action, token, Planned);
      var _ :- fs.WriteJournal(j);
      r := Done(j);
    case Some(j) =>
      if !WellFormed(j.action) {
        return Failed(JournalInvalid);
      }
      if j.action != action {
        return Failed(JournalMismatch);
      }
      r := Done(j);
  }

  method MarkInstalled(fs: Store, j: Journal) returns (r: Reply<()>)
    requires fs.Valid() && fs.journal == Some(j)
    modifies fs
    ensures Safe(fs, r) && Extends(old(fs.names), fs.names)
    ensures Quiet(old(fs.script)) ==> fs.names == old(fs.names)
    ensures !r.Failed?
    ensures fs.journal == if r.Done? then Some(j.(status := Installed)) else Some(j)
    ensures fs.drawn == old(fs.drawn)
  {
    ExtendsKept(fs.names, fs.names);
    if j.status.Installed? {
      return Done(());
    }
    r := fs.WriteJournal(j.(status := Installed));
  }

  /** What an install call that ended in r promises. */
  twostate predicate InstallEnds(fs: Store, action: Action, new r: Reply<()>)
    reads fs
  {
    r.Done? ==>
      && fs.journal.Some? && fs.journal.value.action == action
      && fs.journal.value.status.Installed?
      && Complete(fs.names, fs.journal.value)
  }

  /** What a call keeps when nobody else writes and tokens do not collide. */
  twostate predicate InstallKeeps(fs: Store, action: Action, original: Option<File>, new r: Reply<()>)
    reads fs
  {
    old(fs.Calm() && InstallReach(action, original, fs.names, fs.journal)) ==>
      && fs.Calm() && !r.Failed?
      && InstallReach(action, original, fs.names, fs.journal)
      && (r.Done? && action.disposition.Replace? ==>
            fs.journal.Some? && Entry(fs.names, Backup(fs.journal.value.token)) == original)
  }

  /** A source found at the destination with a wrong mode is never accepted: it
      is moved to the recovery name, and the transaction stops. */
  twostate predicate WrongModeIsHeld(fs: Store, j: Journal, new r: Reply<()>)
    reads fs
  {
    && Quiet(old(fs.script)) && !j.action.disposition.Keep?
    && (j.status.Planned? || j.status.Installed?) && Recovery(j.token) !in old(fs.names)
    && MatchesSource(RecordOf(old(fs.names), Destination), j)
    && !MatchesStagedSource(RecordOf(old(fs.names), Destination), j) ==>
      && !r.Done?
      && (r.Failed? && r.error.ModeChanged? ==>
        && fs.names == old(fs.names)[Recovery(j.token) := old(fs.names)[Destination]] - {Destination}
        && fs.journal == Some(j.(status := RecoveryRequired)))
      && (r.Failed? && WellFormed(j.action) && MIN_PE_SIZE <= |j.action.source| ==> r.error.ModeChanged?)
  }

  method InstallThreadingCopy(fs: Store, action: Action, source: Bytes, ghost original: Option<File>)
    returns (r: Reply<()>)
    requires fs.Valid()
    modifies fs
    ensures ForeignThere(old(fs.names), action) ==> StaysAt(old(fs.names), fs.names, Destination)
    ensures Safe(fs, r)
    ensures InstallEnds(fs, action, r)
    ensures source == action.source ==> InstallKeeps(fs, action, original, r)
    ensures action.disposition.Keep? ==> Extends(old(fs.names), fs.names)
    ensures !WellFormed(action) || source != action.source || |source| < MIN_PE_SIZE ==>
      r.Failed? && fs.names == old(fs.names) && fs.journal == old(fs.journal)
    ensures old(fs.journal.Some?) && source == action.source && old(fs.journal.value.action) == action ==>
      WrongModeIsHeld(fs, old(fs.journal.value), r)
    ensures old(fs.journal.Some? && (fs.journal.value.action != action
                                     || fs.journal.value.status.RolledBack?
                                     || fs.journal.value.status.RecoveryRequired?)) ==>
      r.Failed? && fs.names == old(fs.names) && fs.journal == old(fs.journal)
    ensures if !WellFormed(action) then r == Failed(ActionInvalid)
            else if !(MIN_PE_SIZE <= |source| <= MAX_LICENSED_SIZE) then r == Failed(InputInvalid)
            else if source != action.source then r == Failed(InputChanged)
            else old(fs.journal).Some? ==>
              var j := old(fs.journal).value;
              if !WellFormed(j.action) then r == Failed(JournalInvalid)
              else if j.action != action then r == Failed(JournalMismatch)
              else if j.status.RecoveryRequired? then r == Failed(NeedsRecovery)
              else j.status.RolledBack? ==> r == Failed(AlreadyRolledBack)
  {
    ghost var before := fs.names;
    ExtendsKept(before, before);
    if !WellFormed(action) {
      return Failed(ActionInvalid);
    }
    if !(MIN_PE_SIZE <= |source| <= MAX_LICENSED_SIZE) {
      return Failed(InputInvalid);
    }
    if source != action.source {
      return Failed(InputChanged);
    }
    var loaded := LoadOrCreateJournal(fs, action);
    if !loaded.Done? {
      return loaded.PropagateFailure();
    }
    if loaded.value.status.RecoveryRequired? {
      return Failed(NeedsRecovery);
    }
    if loaded.value.status.RolledBack? {
      return Failed(AlreadyRolledBack);
    }
    ghost var opening := fs.names;
    r := InstallJournalled(fs, source, loaded.value, original);
    KeptTransitive(before, opening, fs.names);
  }

  method InstallJournalled(fs: Store, source: Bytes, j: Journal, ghost original: Option<File>)
    returns (r: Reply<()>)
    requires fs.Valid() && fs.journal == Some(j) && source == j.action.source && WellFormed(j.action)
    requires MIN_PE_SIZE <= |source| && (j.status.Planned? || j.status.Installed?)
    modifies fs
    ensures ForeignThere(old(fs.names), j.action) ==> StaysAt(old(fs.names), fs.names, Destination)
    ensures Safe(fs, r)
    ensures InstallEnds(fs, j.action, r)
    ensures InstallKeeps(fs, j.action, original, r)
    ensures WrongModeIsHeld(fs, j, r)
    ensures j.action.disposition.Keep? ==> Extends(old(fs.names), fs.names)
  {
    ghost var before := fs.names;
    var current := fs.OpenRecord(Destination);
    ExtendsKept(before, fs.names);
    if !current.Done? {
      return current.PropagateFailure();
    }
    ghost var found := fs.names;
    r := InstallOver(fs, source, j, current.value, original);
    KeptTransitive(before, found, fs.names);
  }

  /** The four ways to go on, by what is at the destination. */
  method InstallOver(fs: Store, source: Bytes, j: Journal, current: Record, ghost original: Option<File>)
    returns (r: Reply<()>)
    requires fs.Valid() && fs.journal == Some(j) && source == j.action.source && WellFormed(j.action)
    requires MIN_PE_SIZE <= |source| && (j.status.Planned? || j.status.Installed?)
    requires current == RecordOf(fs.names, Destination)
    modifies fs
    ensures ForeignThere(old(fs.names), j.action) ==> StaysAt(old(fs.names), fs.names, Destination)
    ensures Safe(fs, r)
    ensures InstallEnds(fs, j.action, r)
    ensures InstallKeeps(fs, j.action, original, r)
    ensures WrongModeIsHeld(fs, j, r)
    ensures j.action.disposition.Keep? ==> Extends(old(fs.names), fs.names)
  {
    if j.action.disposition.Keep? {
      r := ConfirmKept(fs, j, current);
    } else if MatchesStagedSource(current, j) {
      r := ConfirmInstalled(fs, j, original);
    } else if MatchesSource(current, j) {
      r := RefuseMode(fs, j, original);
    } else {
      r := StageAndPublish(fs, source, j, original);
    }
  }

  method ConfirmKept(fs: Store, j: Journal, current: Record) returns (r: Reply<()>)
    requires fs.Valid() && fs.journal == Some(j) && j.action.disposition.Keep?
    requires current == RecordOf(fs.names, Destination)
    modifies fs
    ensures Safe(fs, r) && Extends(old(fs.names), fs.names)
    ensures InstallEnds(fs, j.action, r)
    ensures Quiet(old(fs.script)) ==> fs.names == old(fs.names)
    ensures r.Failed? <==> !MatchesSource(current, j)
    ensures fs.journal == if r.Done? then Some(j.(status := Installed)) else Some(j)
    ensures fs.drawn == old(fs.drawn)
    ensures r.Failed? ==> r.error == DestinationChanged
  {
    ExtendsKept(fs.names, fs.names);
    if !MatchesSource(current, j) {
      return Failed(DestinationChanged);
    }
    r := MarkInstalled(fs, j);
  }

  /** The source is there at a wrong mode: keep it as evidence. */
  method RefuseMode(fs: Store, j: Journal, ghost original: Option<File>) returns (r: Reply<()>)
    requires fs.Valid() && fs.journal == Some(j) && !j.action.disposition.Keep?
    requires MatchesSource(RecordOf(fs.names, Destination), j)
    requires !MatchesStagedSource(RecordOf(fs.names, Destination), j)
    modifies fs
    ensures Safe(fs, r) && !r.Done?
    ensures InstallKeeps(fs, j.action, original, r)
    ensures WrongModeIsHeld(fs, j, r)
  {
    if InstallReach(j.action, original, fs.names, fs.journal) {
      SourceMeansPublished(j.action, original, fs.names, fs.journal);
    }
    var quarantined := QuarantineDestination(fs, j);
    r := if quarantined.Done? then Failed(ModeChanged) else quarantined.PropagateFailure();
  }

  /** The destination is already the source: check the backup and record it. */
  method ConfirmInstalled(fs: Store, j: Journal, ghost original: Option<File>) returns (r: Reply<()>)
    requires fs.Valid() && fs.journal == Some(j) && !j.action.disposition.Keep? && WellFormed(j.action)
    requires MatchesStagedSource(RecordOf(fs.names, Destination), j)
    modifies fs
    ensures Safe(fs, r) && Extends(old(fs.names), fs.names)
    ensures InstallEnds(fs, j.action, r)
    ensures InstallKeeps(fs, j.action, original, r)
    ensures fs.journal == if r.Done? then Some(j.(status := Installed)) else Some(j)
    ensures r.Failed? ==> r.error in {BackupConflict, NotRegular}
  {
    ExtendsKept(fs.names, fs.names);
    if InstallReach(j.action, original, fs.names, fs.journal) {
      SourceMeansPublished(j.action, original, fs.names, fs.journal);
    }
    ghost var before := fs.names;
    if j.action.disposition.Replace? {
      var backup := fs.OpenRecord(Backup(j.token));
      ExtendsKept(before, fs.names);
      if !backup.Done? {
        return backup.PropagateFailure();
      }
      if backup.value != j.action.before {
        return Failed(BackupConflict);
      }
    }
    ghost var found := fs.names;
    r := MarkInstalled(fs, j);
    KeptTransitive(before, found, fs.names);
  }

  method StageAndPublish(fs: Store, source: Bytes, j: Journal, ghost original: Option<File>)
    returns (r: Reply<()>)
    requires fs.Valid() && fs.journal == Some(j) && source == j.action.source && WellFormed(j.action)
    requires MIN_PE_SIZE <= |source| && !j.action.disposition.Keep?
    requires !MatchesSource(RecordOf(fs.names, Destination), j)
    requires j.status.Planned? || j.status.Installed?
    modifies fs
    ensures ForeignThere(old(fs.names), j.action) ==> StaysAt(old(fs.names), fs.names, Destination)
    ensures Safe(fs, r)
    ensures InstallEnds(fs, j.action, r)
    ensures InstallKeeps(fs, j.action, original, r)
  {
    hide Kept;
    ghost var before := fs.names;
    ghost var usual := fs.Calm() && InstallReach(j.action, original, before, fs.journal);
    var staged := CopyStage(fs, source, j);
    if usual {
      StagingKeepsReach(j.action, original, before, fs.names, j);
    }
    if !staged.Done? {
      return staged.PropagateFailure();
    }
    ghost var complete := fs.names;
    if j.action.disposition.Replace? {
      var backed := MoveToBackup(fs, j);
      KeptTransitive(before, complete, fs.names);
      if !backed.Done? {
        return backed.PropagateFailure();
      }
    }
    ghost var moved := fs.names;
    r := PublishOrConfirm(fs, j, original);
    KeptTransitive(before, moved, fs.names);
  }

  method PublishOrConfirm(fs: Store, j: Journal, ghost original: Option<File>) returns (r: Reply<()>)
    requires fs.Valid() && fs.journal == Some(j) && !j.action.disposition.Keep?
    requires j.action.disposition.Replace? ==>
      j.action.before.Present? && RecordOf(fs.names, Backup(j.token)) == j.action.before
    modifies fs
    ensures ForeignThere(old(fs.names), j.action) ==> StaysAt(old(fs.names), fs.names, Destination)
    ensures Safe(fs, r)
    ensures InstallEnds(fs, j.action, r)
    ensures old(fs.Calm()) && j.status.Planned? && StageComplete(old(fs.names), j)
            && Destination !in old(fs.names)
            && InstallReach(j.action, original, old(fs.names), old(fs.journal)) ==>
      InstallKeeps(fs, j.action, original, r)
  {
    hide Kept;
    ghost var before := fs.names;
    var current := fs.OpenRecord(Destination);
    ExtendsKept(before, fs.names);
    if !current.Done? {
      return current.PropagateFailure();
    }
    ghost var found := fs.names;
    if current.value.Present? {
      r := ConfirmPresent(fs, j, current.value);
    } else {
      r := PublishStage(fs, j);
    }
    KeptTransitive(before, found, fs.names);
  }

  /** A destination that is there is the published one, or stops the install. */
  method ConfirmPresent(fs: Store, j: Journal, current: Record) returns (r: Reply<()>)
    requires fs.Valid() && fs.journal == Some(j) && !j.action.disposition.Keep?
    requires current.Present? && current == RecordOf(fs.names, Destination)
    requires j.action.disposition.Replace? ==> RecordOf(fs.names, Backup(j.token)) == j.action.before
    requires j.action.disposition.Replace? ==> j.action.before.Present?
    modifies fs
    ensures Safe(fs, r) && InstallEnds(fs, j.action, r)
    ensures r.Done? ==> MatchesStagedSource(current, j)
    ensures MatchesStagedSource(current, j) ==> !r.Failed? && Extends(old(fs.names), fs.names)
    ensures !MatchesSource(current, j) ==>
      r == Failed(DestinationChanged) && fs.names == old(fs.names) && fs.journal == old(fs.journal)
    ensures MatchesSource(current, j) && !MatchesStagedSource(current, j) && Quiet(old(fs.script))
            && Recovery(j.token) !in old(fs.names) ==>
      !r.Done? && (r.Failed? ==> fs.names == old(fs.names)[Recovery(j.token) := old(fs.names)[Destination]] - {Destination})
    ensures MatchesSource(current, j) && r.Failed? ==> r.error in {ModeChanged, NotRegular, RecoveryConflict}
  {
    hide Kept;
    ghost var found := fs.names;
    if MatchesStagedSource(current, j) {
      r := MarkInstalled(fs, j);
    } else if MatchesSource(current, j) {
      var quarantined := QuarantineDestination(fs, j);
      r := if quarantined.Done? then Failed(ModeChanged) else quarantined.PropagateFailure();
    } else {
      ExtendsKept(found, found);
      r := Failed(DestinationChanged);
    }
  }

  // Rollback ----------------------------------------------------------------------

  /** What a rollback call that ended in r promises. */
  twostate predicate RollbackEnds(fs: Store, new r: Reply<()>)
    reads fs
  {
    r.Done? ==>
      && old(fs.journal).Some?
      && fs.journal == Some(old(fs.journal).value.(status := RolledBack))
      && (old(fs.journal).value.action.disposition.Replace? && !old(fs.journal).value.status.RolledBack? ==>
            RecordOf(fs.names, Destination) == fs.journal.value.action.before)
  }

  /** What it keeps when nobody else writes. */
  twostate predicate RollbackKeeps(fs: Store, action: Action, original: Option<File>, new r: Reply<()>)
    reads fs
  {
    old(Quiet(fs.script) && RollbackReach(action, original, fs.names, fs.journal)) ==>
      && !r.Failed?
      && RollbackReach(action, original, fs.names, fs.journal)
      && (r.Done? ==> Entry(fs.names, Destination) == original)
  }

  method RollbackThreadingCopy(fs: Store, ghost action: Action, ghost original: Option<File>)
    returns (r: Reply<()>)
    requires fs.Valid()
    modifies fs
    ensures Safe(fs, r)
    ensures RollbackEnds(fs, r)
    ensures RollbackKeeps(fs, action, original, r)
    ensures old(fs.journal.None? || !WellFormed(fs.journal.value.action) || fs.journal.value.status.RolledBack?) ==>
      && fs.names == old(fs.names) && fs.journal == old(fs.journal)
      && r == (if old(fs.journal).None? then Failed(SystemError)
               else if !WellFormed(old(fs.journal).value.action) then Failed(JournalInvalid) else Done(()))
  {
    ExtendsKept(fs.names, fs.names);
    match fs.journal
    case None => return Failed(SystemError);
    case Some(j) =>
      if !WellFormed(j.action) {
        return Failed(JournalInvalid);
      }
      if j.status.RolledBack? {
        return Done(());
      }
      r := RollbackJournalled(fs, j, action, original);
  }

  method MarkRolledBack(fs: Store, j: Journal) returns (r: Reply<()>)
    requires fs.Valid()
    modifies fs
    ensures Safe(fs, r) && Extends(old(fs.names), fs.names)
    ensures Quiet(old(fs.script)) ==> fs.names == old(fs.names)
    ensures !r.Failed?
    ensures fs.journal == if r.Done? then Some(j.(status := RolledBack)) else old(fs.journal)
  {
    r := fs.WriteJournal(j.(status := RolledBack));
  }

  method RollbackJournalled(fs: Store, j: Journal, ghost action: Action, ghost original: Option<File>)
    returns (r: Reply<()>)
    requires fs.Valid() && fs.journal == Some(j) && WellFormed(j.action) && !j.status.RolledBack?
    modifies fs
    ensures Safe(fs, r)
    ensures RollbackEnds(fs, r)
    ensures RollbackKeeps(fs, action, original, r)
  {
    ghost var before := fs.names;
    var current := fs.OpenRecord(Destination);
    ExtendsKept(before, fs.names);
    if !current.Done? {
      return current.PropagateFailure();
    }
    ghost var found := fs.names;
    if j.action.disposition.Keep? {
      r := RollbackKept(fs, j, current.value);
    } else if current.value.Present? && !MatchesSource(current.value, j) {
      r := SettleForeign(fs, j, current.value, action, original);
    } else if MatchesSource(current.value, j) {
      r := Withdraw(fs, j, action, original);
    } else {
      r := RestoreBackup(fs, j, action, original);
    }
    KeptTransitive(before, found, fs.names);
  }

  method RollbackKept(fs: Store, j: Journal, current: Record) returns (r: Reply<()>)
    requires fs.Valid() && fs.journal == Some(j) && j.action.disposition.Keep?
    modifies fs
    ensures Safe(fs, r) && Extends(old(fs.names), fs.names)
    ensures RollbackEnds(fs, r)
    ensures Quiet(old(fs.script)) ==> fs.names == old(fs.names)
    ensures r.Failed? <==> !MatchesSource(current, j)
    ensures !r.Done? ==> fs.journal == Some(j)
    ensures r.Failed? ==> r.error == DestinationChanged
  {
    ExtendsKept(fs.names, fs.names);
    if !MatchesSource(current, j) {
      return Failed(DestinationChanged);
    }
    r := MarkRolledBack(fs, j);
  }

  /** The destination holds something else: the file that was there before the
      transaction, untouched or already restored, or a stranger's. */
  method SettleForeign(fs: Store, j: Journal, current: Record,
                       ghost action: Action, ghost original: Option<File>)
    returns (r: Reply<()>)
    requires fs.Valid() && fs.journal == Some(j) && !j.action.disposition.Keep? && !j.status.RolledBack?
    requires current.Present? && RecordOf(fs.names, Destination) == current && !MatchesSource(current, j)
    modifies fs
    ensures Safe(fs, r)
    ensures RollbackEnds(fs, r)
    ensures RollbackKeeps(fs, action, original, r)
    ensures Quiet(old(fs.script)) && !(j.action.disposition.Replace? && current == j.action.before) ==>
      && !r.Done?
      && (Recovery(j.token) !in old(fs.names) && r.Failed? ==>
        && fs.names == old(fs.names)[Recovery(j.token) := old(fs.names)[Destination]] - {Destination}
        && fs.journal == Some(j.(status := RecoveryRequired)))
    ensures r.Failed? ==> r.error in {DestinationChanged, NotRegular, RecoveryConflict}
  {
    ghost var before := fs.names;
    ExtendsKept(before, before);
    if RollbackReach(action, original, before, fs.journal) {
      RollbackCases(action, original, before, fs.journal);
    }
    if j.action.disposition.Replace? && current == j.action.before {
      var backup := fs.OpenRecord(Backup(j.token));
      ExtendsKept(before, fs.names);
      if !backup.Done? {
        return backup.PropagateFailure();
      }
      if backup.value.Absent? {
        ghost var found := fs.names;
        r := MarkRolledBack(fs, j);
        KeptTransitive(before, found, fs.names);
        return;
      }
    }
    ghost var found := fs.names;
    var quarantined := QuarantineDestination(fs, j);
    KeptTransitive(before, found, fs.names);
    r := if quarantined.Done? then Failed(DestinationChanged) else quarantined.PropagateFailure();
  }

  /** Hold the installed file aside, then put the backup back. */
  method Withdraw(fs: Store, j: Journal, ghost action: Action, ghost original: Option<File>)
    returns (r: Reply<()>)
    requires fs.Valid() && fs.journal == Some(j) && !j.action.disposition.Keep? && WellFormed(j.action)
    requires MatchesSource(RecordOf(fs.names, Destination), j) && !j.status.RolledBack?
    modifies fs
    ensures Safe(fs, r)
    ensures RollbackEnds(fs, r)
    ensures RollbackKeeps(fs, action, original, r)
    ensures r.Done? ==> Entry(fs.names, Held(j.token)) == Some(old(fs.names)[Destination])
  {
    ghost var before := fs.names;
    if RollbackReach(action, original, before, fs.journal) {
      RollbackCases(action, original, before, fs.journal);
    }
    var moved := MoveBound(fs, Destination, Held(j.token), Present(j.action.source, SOURCE_MODE));
    if !moved.Done? {
      return moved.PropagateFailure();
    }
    ghost var held := fs.names;
    r := RestoreBackup(fs, j, action, original);
    KeptTransitive(before, held, fs.names);
  }

  /** The destination was found empty or was just emptied. */
  method RestoreBackup(fs: Store, j: Journal, ghost action: Action, ghost original: Option<File>)
    returns (r: Reply<()>)
    requires fs.Valid() && fs.journal == Some(j) && !j.action.disposition.Keep? && WellFormed(j.action)
    requires Destination !in fs.names && !j.status.RolledBack?
    modifies fs
    ensures Safe(fs, r)
    ensures RollbackEnds(fs, r)
    ensures RollbackKeeps(fs, action, original, r)
    ensures r.Done? && Held(j.token) in old(fs.names) ==>
      Entry(fs.names, Held(j.token)) == Entry(old(fs.names), Held(j.token))
  {
    ghost var before := fs.names;
    ExtendsKept(before, before);
    if RollbackReach(action, original, before, fs.journal) {
      RollbackCases(action, original, before, fs.journal);
    }
    if j.action.disposition.Replace? {
      var restored := MoveBackupBack(fs, j);
      if !restored.Done? {
        return restored.PropagateFailure();
      }
    }
    ghost var restored := fs.names;
    r := MarkRolledBack(fs, j);
    KeptTransitive(before, restored, fs.names);
  }

  method MoveBackupBack(fs: Store, j: Journal) returns (r: Reply<()>)
    requires fs.Valid() && fs.journal == Some(j) && j.action.before.Present?
    requires Destination !in fs.names
    modifies fs
    ensures Safe(fs, r)
    ensures r.Failed? ==> r.error in {NeedsRecovery, RestoreChanged, NotRegular, RecoveryConflict, SystemError}
    ensures r == Failed(RestoreChanged) ==> fs.journal == Some(j.(status := RecoveryRequired))
    ensures r.Done? ==>
      && fs.journal == Some(j) && RecordOf(fs.names, Destination) == j.action.before
      && (Held(j.token) in old(fs.names) ==>
            Entry(fs.names, Held(j.token)) == Entry(old(fs.names), Held(j.token)))
    ensures Quiet(old(fs.script)) && RecordOf(old(fs.names), Backup(j.token)) == j.action.before ==>
      && !r.Failed? && fs.journal == Some(j)
      && fs.names == (if r.Done? then old(fs.names)[Destination := old(fs.names)[Backup(j.token)]] - {Backup(j.token)}
                      else old(fs.names))
  {
    ghost var before := fs.names;
    var backup := fs.OpenRecord(Backup(j.token));
    ExtendsKept(before, fs.names);
    if !backup.Done? {
      return backup.PropagateFailure();
    }
    if backup.value != j.action.before {
      return Failed(NeedsRecovery);
    }
    ghost var found := fs.names;
    r := MoveBound(fs, Backup(j.token), Destination, j.action.before);
    KeptTransitive(before, found, fs.names);
    if r.Failed? && !r.error.SystemError? {
      ghost var refused := fs.names;
      r := StopAfterRestore(fs, j);
      KeptTransitive(before, refused, fs.names);
    }
  }

  method StopAfterRestore(fs: Store, j: Journal) returns (r: Reply<()>)
    requires fs.Valid()
    modifies fs
    ensures Safe(fs, r) && !r.Done?
    ensures r.Failed? ==> r.error in {RestoreChanged, NotRegular, RecoveryConflict}
    ensures r == Failed(RestoreChanged) ==> fs.journal == Some(j.(status := RecoveryRequired))
    ensures fs.journal == old(fs.journal) || fs.journal == Some(j.(status := RecoveryRequired))
    ensures Destination !in old(fs.names) && Quiet(old(fs.script)) ==> Extends(old(fs.names), fs.names)
    ensures r.Failed? && Quiet(old(fs.script)) && Recovery(j.token) !in old(fs.names)
            && (Destination in old(fs.names) ==> old(fs.names)[Destination].Regular?) ==>
      fs.journal == Some(j.(status := RecoveryRequired))
    ensures Destination in old(fs.names) && old(fs.names)[Destination].Regular? && r.Failed? && Quiet(old(fs.script))
            && Recovery(j.token) !in old(fs.names) ==>
      fs.names == old(fs.names)[Recovery(j.token) := old(fs.names)[Destination]] - {Destination}
  {
    ghost var before := fs.names;
    var restored := fs.OpenRecord(Destination);
    ExtendsKept(before, fs.names);
    if !restored.Done? {
      return restored.PropagateFailure();
    }
    ghost var found := fs.names;
    var stopped;
    if restored.value.Present? {
      stopped := QuarantineDestination(fs, j);
    } else {
      stopped := fs.WriteJournal(j.(status := RecoveryRequired));
    }
    KeptTransitive(before, found, fs.names);
    r := if stopped.Done? then Failed(RestoreChanged) else stopped.PropagateFailure();
  }

  // Every schedule ------------------------------------------------------------------

  /** Any number of installs killed anywhere, then one that is not killed. */
  method InstallUntilDone(fs: Store, action: Action, ghost original: Option<File>)
    requires fs.Valid() && fs.Calm()
    requires InstallReach(action, original, fs.names, fs.journal)
    modifies fs
    ensures fs.Valid() && fs.Calm() && Kept(old(fs.names), fs.names)
    ensures InstallReach(action, original, fs.names, fs.journal)
    ensures fs.journal.Some? && fs.journal.value.status.Installed?
    ensures Complete(fs.names, fs.journal.value)
    ensures action.disposition.Replace? ==>
      Entry(fs.names, Backup(fs.journal.value.token)) == original
  {
    ghost var before := fs.names;
    ExtendsKept(before, before);
    while true
      invariant fs.Valid() && fs.Calm() && Kept(before, fs.names)
      invariant InstallReach(action, original, fs.names, fs.journal)
      decreases |fs.script|
    {
      ghost var earlier := fs.names;
      var r := InstallThreadingCopy(fs, action, action.source, original);
      KeptTransitive(before, earlier, fs.names);
      if r.Done? {
        return;
      }
    }
  }

  /** Any number of killed rollbacks, then one that is not killed. */
  method RollbackUntilDone(fs: Store, ghost action: Action, ghost original: Option<File>)
    requires fs.Valid() && Quiet(fs.script)
    requires RollbackReach(action, original, fs.names, fs.journal)
    modifies fs
    ensures fs.Valid() && Kept(old(fs.names), fs.names)
    ensures fs.journal.Some? && fs.journal.value.status.RolledBack?
    ensures Entry(fs.names, Destination) == original
  {
    ghost var before := fs.names;
    ExtendsKept(before, before);
    while true
      invariant fs.Valid() && Quiet(fs.script) && Kept(before, fs.names)
      invariant RollbackReach(action, original, fs.names, fs.journal)
      decreases |fs.script|
    {
      ghost var earlier := fs.names;
      var r := RollbackThreadingCopy(fs, action, original);
      KeptTransitive(before, earlier, fs.names);
      if r.Done? {
        return;
      }
    }
  }

  /** A whole history: attempts at installing, however each of them ends, and a
      rollback that is repeated until it is through.  The destination is again
      the very file it was, and no file of the directory is lost. */
  method InstallThenRollBack(fs: Store, action: Action, attempts: nat, ghost original: Option<File>)
    returns (ghost between: Directory)
    requires fs.Valid() && fs.Calm()
    requires InstallReach(action, original, fs.names, fs.journal)
    modifies fs
    ensures fs.Valid() && Kept(old(fs.names), fs.names)
    ensures Entry(fs.names, Destination) == original
    ensures attempts > 0 && Unkilled(old(fs.script)) ==>
      Destination in between && between[Destination].Regular? && between[Destination].data == action.source
    ensures fs.journal.None? || fs.journal.value.status.RolledBack?
  {
    ghost var before := fs.names;
    ExtendsKept(before, before);
    for i := 0 to attempts
      invariant fs.Valid() && fs.Calm() && Kept(before, fs.names)
      invariant InstallReach(action, original, fs.names, fs.journal)
      invariant Unkilled(old(fs.script)) ==> Unkilled(fs.script)
      invariant i > 0 && Unkilled(old(fs.script)) ==>
        Destination in fs.names && fs.names[Destination].Regular? && fs.names[Destination].data == action.source
    {
      ghost var earlier := fs.names;
      var _ := InstallThreadingCopy(fs, action, action.source, original);
      KeptTransitive(before, earlier, fs.names);
    }
    between := fs.names;
    if fs.journal.None? {
      return;
    }
    InstallReachIsRollbackReach(action, original, fs.names, fs.journal);
    ghost var installed := fs.names;
    RollbackUntilDone(fs, action, original);
    KeptTransitive(before, installed, fs.names);
  }

  // From the plan on ---------------------------------------------------------------------------------

  /** Look at the source and at the destination, and decide what is to be done. */
  method PlanThreadingCopy(fs: Store, source: Bytes) returns (r: Reply<Action>)
    requires fs.Valid()
    modifies fs
    ensures fs.Valid() && Advances(old(fs.script), fs.script) && Extends(old(fs.names), fs.names)
    ensures fs.journal == old(fs.journal) && (old(fs.Calm()) ==> fs.Calm() && fs.names == old(fs.names))
    ensures r.Killed? ==> !Unkilled(old(fs.script))
    ensures r.Failed? ==>
      !(0x40 <= |source| <= 0x1000_0000) || (Destination in fs.names && fs.names[Destination].Special?)
    ensures r.Done? ==>
      && 0x40 <= |source| <= 0x1000_0000
      && r.value.source == source && WellFormed(r.value) && Plans(r.value, Entry(fs.names, Destination))
      && (r.value.disposition.Install? <==> Destination !in fs.names)
      && (r.value.disposition.Keep? <==> Destination in fs.names && fs.names[Destination].data == source)
    ensures r.Failed? ==> r.error == if 0x40 <= |source| <= 0x1000_0000 then NotRegular else InputInvalid
  {
    if !(MIN_PE_SIZE <= |source| <= MAX_LICENSED_SIZE) {
      return Failed(InputInvalid);
    }
    var found :- fs.OpenRecord(Destination);
    r := Done(PlanOf(source, found));
  }

  /** Plan and install: without deaths and interference the source is at the destination; and
      whatever happens, a repeated rollback gives the original back. */
  method PlanInstallRollBack(fs: Store, source: Bytes, attempts: nat, withdraw: bool) returns (r: Reply<()>)
    requires fs.Valid() && fs.Calm() && fs.journal.None?
    requires 0x40 <= |source| <= 0x1000_0000
    requires Destination in fs.names ==> fs.names[Destination].Regular?
    modifies fs
    ensures fs.Valid() && Kept(old(fs.names), fs.names)
    ensures !withdraw && Unkilled(old(fs.script)) ==> r.Done?
    ensures !withdraw && r.Done? ==>
      && Destination in fs.names && fs.names[Destination].Regular? && fs.names[Destination].data == source
      && (fs.names[Destination].mode == 0x1A4
          || (Destination in old(fs.names) && old(fs.names)[Destination].data == source))
    ensures withdraw ==> Entry(fs.names, Destination) == Entry(old(fs.names), Destination)
  {
    hide Kept, InstallReach;
    ghost var before, original := fs.names, Entry(fs.names, Destination);
    ExtendsKept(before, before);
    var planned := PlanThreadingCopy(fs, source);
    if !planned.Done? {
      return planned.PropagateFailure();
    }
    PlannedReach(planned.value, original, fs.names);
    if withdraw {
      ghost var _ := InstallThenRollBack(fs, planned.value, attempts, original);
      r := Done(());
    } else {
      r := InstallThreadingCopy(fs, planned.value, source, original);
    }
  }

  lemma PlannedReach(action: Action, original: Option<File>, names: Directory)
    requires Plans(action, original) && original == Entry(names, Destination)
    ensures InstallReach(action, original, names, None)
  {
  }
}

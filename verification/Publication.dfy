/** Publication of a staged tool under its final name, with a journal that is written
    before anything is renamed, and its rollback. */
module Publication {
  import opened Outcomes

  datatype Phase = Planned | Published | RollingBack | RolledBack

  /** A directory with the digest of everything in it. */
  datatype Tree = Tree(inode: nat, digest: nat)

  datatype Journal = Journal(phase: Phase, inode: nat, digest: nat)

  datatype Event = Proceed | Kill

  datatype PublicationError =
    | ExistingTool
    | NoStage
    | RolledBackBefore
    | Conflict
    | ToolMissing
    | OwnershipChanged
    | NoJournal

  type Reply<+T> = Outcome<T, PublicationError>

  datatype Command = Publish | RollBackTool | Inspect

  ghost predicate Unkilled(script: seq<Event>) {
    Kill !in script
  }

  predicate Owned(j: Journal, tree: Option<Tree>) {
    tree == Some(Tree(j.inode, j.digest))
  }

  /** The states of the two names that every journal phase allows. */
  ghost predicate Reachable(j: Journal, stage: Option<Tree>, destination: Option<Tree>) {
    match j.phase
    case Planned => AtOne(j, stage, destination)
    case Published => Owned(j, destination) && stage.None?
    case RollingBack => AtOne(j, stage, destination)
    case RolledBack => Owned(j, stage) && destination.None?
  }

  /** The recorded directory is under exactly one of the two names. */
  ghost predicate AtOne(j: Journal, stage: Option<Tree>, destination: Option<Tree>) {
    (Owned(j, stage) && destination.None?) || (Owned(j, destination) && stage.None?)
  }

  lemma ReachableIsAtOne(j: Journal, stage: Option<Tree>, destination: Option<Tree>)
    requires Reachable(j, stage, destination)
    ensures AtOne(j, stage, destination) && !(Owned(j, stage) && Owned(j, destination))
  {
  }

  // What the commands do when nothing dies ------------------------------------------------------------

  datatype Place = Place(journal: Option<Journal>, stage: Option<Tree>, destination: Option<Tree>)

  /** A staged tool gets its final name, unless there is a tool, or it was rolled back. */
  ghost function AfterPublish(p: Place): Place {
    match p.journal
    case None =>
      if p.destination.Some? || p.stage.None? then p
      else Place(Some(Journal(Published, p.stage.value.inode, p.stage.value.digest)), None, p.stage)
    case Some(j) =>
      if j.phase in {RollingBack, RolledBack} then p
      else Place(Some(j.(phase := Published)), None, Some(Tree(j.inode, j.digest)))
  }

  /** A recorded tool gets its stage name back. */
  ghost function AfterRollback(p: Place): Place {
    match p.journal
    case None => p
    case Some(j) => Place(Some(j.(phase := RolledBack)), Some(Tree(j.inode, j.digest)), None)
  }

  ghost function AfterAll(p: Place, commands: seq<Command>): Place {
    if commands == [] then p
    else
      var q := AfterAll(p, commands[..|commands| - 1]);
      match commands[|commands| - 1]
      case Publish => AfterPublish(q)
      case RollBackTool => AfterRollback(q)
      case Inspect => q
  }

  ghost function Inspections(commands: seq<Command>): nat {
    if commands == [] then 0
    else Inspections(commands[..|commands| - 1]) + if commands[|commands| - 1].Inspect? then 1 else 0
  }

  class Publisher {
    var stage: Option<Tree>
    var destination: Option<Tree>
    var journal: Option<Journal>
    var script: seq<Event>

    constructor (stage: Option<Tree>, destination: Option<Tree>, script: seq<Event>)
      ensures this.stage == stage && this.destination == destination && journal == None && this.script == script
    {
      this.stage, this.destination, this.journal, this.script := stage, destination, None, script;
    }

    ghost predicate Valid()
      reads this
    {
      journal.Some? ==> Reachable(journal.value, stage, destination)
    }

    ghost function Here(): Place
      reads this
    {
      Place(journal, stage, destination)
    }

    /** The tree that is recorded stays what it is, and nothing else comes or goes. */
    twostate predicate Conserved()
      reads this
    {
      && Valid()
      && (old(journal).Some? ==>
            && journal.Some? && journal.value.inode == old(journal).value.inode
            && journal.value.digest == old(journal).value.digest)
      && (old(journal).None? && journal.None? ==> stage == old(stage) && destination == old(destination))
      && (old(journal).None? && journal.Some? ==> Owned(journal.value, old(stage)) && old(destination).None?)
    }

    method Tick() returns (r: Reply<()>)
      modifies `script
      ensures !r.Failed? && |script| <= |old(script)|
      ensures r.Killed? ==> |script| < |old(script)|
      ensures Unkilled(old(script)) ==> r.Done? && Unkilled(script)
    {
      if script == [] {
        return Done(());
      }
      var event := script[0];
      script := script[1..];
      r := if event == Kill then Killed else Done(());
    }

    method WriteJournal(j: Journal) returns (r: Reply<()>)
      modifies `script, `journal
      ensures !r.Failed? && |script| <= |old(script)| && (r.Killed? ==> |script| < |old(script)|)
      ensures r.Done? ==> journal == Some(j)
      ensures r.Killed? ==> journal == old(journal)
      ensures Unkilled(old(script)) ==> r.Done? && Unkilled(script)
    {
      r := Tick();
      if r.Done? {
        journal := Some(j);
      }
    }

    /** Move the stage to the destination, or back, when the name is free. */
    method Rename(back: bool) returns (r: Reply<()>)
      modifies `script, `stage, `destination
      ensures |script| <= |old(script)| && (r.Killed? ==> |script| < |old(script)|)
      ensures r.Failed? <==>
        && (if back then old(stage).Some? || old(destination).None? else old(destination).Some? || old(stage).None?)
        && !r.Killed?
      ensures r.Done? ==> if back then stage == old(destination) && destination == None
                          else destination == old(stage) && stage == None
      ensures !r.Done? ==> stage == old(stage) && destination == old(destination)
      ensures Unkilled(old(script)) ==> !r.Killed? && Unkilled(script)
    {
      var _ :- Tick();
      if back {
        if stage.Some? || destination.None? {
          return Failed(Conflict);
        }
        stage, destination := destination, None;
      } else {
        if destination.Some? || stage.None? {
          return Failed(Conflict);
        }
        destination, stage := stage, None;
      }
      r := Done(());
    }

    /** Publish what is staged; a tool that is there already is never adopted. */
    method PublishComposed() returns (r: Reply<()>)
      requires Valid()
      modifies this
      ensures Conserved() && |script| <= |old(script)| && (r.Killed? ==> |script| < |old(script)|)
      ensures r.Done? ==> journal.Some? && journal.value.phase == Published
      ensures Unkilled(old(script)) ==>
        && Unkilled(script) && !r.Killed?
        && (r.Done? <==> match old(journal)
                         case None => old(destination).None? && old(stage).Some?
                         case Some(j) => j.phase == Planned || j.phase == Published)
      ensures r.Failed? ==> journal == old(journal) && stage == old(stage) && destination == old(destination)
      ensures Unkilled(old(script)) ==> Here() == AfterPublish(old(Here()))
      ensures r.Failed? ==>
        r.error == match old(journal)
                   case None => if old(destination).Some? then ExistingTool else NoStage
                   case Some(_) => RolledBackBefore
    {
      var j: Journal;
      if journal.Some? {
        j := journal.value;
      } else {
        if destination.Some? {
          return Failed(ExistingTool);
        }
        if stage.None? {
          return Failed(NoStage);
        }
        j := Journal(Planned, stage.value.inode, stage.value.digest);
        var _ :- WriteJournal(j);
      }
      if j.phase == RollingBack || j.phase == RolledBack {
        return Failed(RolledBackBefore);
      }
      if destination.Some? {
        if stage.Some? {
          return Failed(Conflict);
        }
        if !Owned(j, destination) {
          return Failed(OwnershipChanged);
        }
      } else {
        if j.phase != Planned {
          return Failed(ToolMissing);
        }
        if !Owned(j, stage) {
          return Failed(OwnershipChanged);
        }
        var _ :- Rename(false);
        if !Owned(j, destination) {
          return Failed(OwnershipChanged);
        }
      }
      var _ :- WriteJournal(j.(phase := Published));
      r := Done(());
    }

    /** Look at the publication without a change. */
    method InspectPublication() returns (r: Reply<Tree>)
      requires Valid()
      ensures r.Done? <==> journal.Some?
      ensures r.Done? ==> Owned(journal.value, Some(r.value)) && Some(r.value) in {stage, destination}
      ensures r.Failed? ==> r.error == NoJournal
    {
      if journal.None? {
        return Failed(NoJournal);
      }
      var j := journal.value;
      if destination.Some? {
        if stage.Some? || j.phase == RolledBack {
          return Failed(Conflict);
        }
        return if Owned(j, destination) then Done(destination.value) else Failed(OwnershipChanged);
      }
      if stage.None? || j.phase == Published {
        return Failed(ToolMissing);
      }
      r := if Owned(j, stage) then Done(stage.value) else Failed(OwnershipChanged);
    }

    /** Move the tool back to its stage; what was never published stays there. */
    method RollbackComposed() returns (r: Reply<()>)
      requires Valid()
      modifies this
      ensures Conserved() && |script| <= |old(script)| && (r.Killed? ==> |script| < |old(script)|)
      ensures r.Failed? <==> old(journal).None? && !r.Killed?
      ensures r.Done? ==> journal.Some? && journal.value.phase == RolledBack && Owned(journal.value, stage) && destination.None?
      ensures Unkilled(old(script)) ==> !r.Killed? && Unkilled(script)
      ensures r.Failed? ==> journal == old(journal) && stage == old(stage) && destination == old(destination)
      ensures Unkilled(old(script)) ==> Here() == AfterRollback(old(Here())) && (r.Failed? ==> r.error == NoJournal)
    {
      if journal.None? {
        return Failed(NoJournal);
      }
      var j := journal.value;
      if j.phase == RolledBack {
        return Done(());
      }
      if destination.Some? {
        if stage.Some? {
          return Failed(Conflict);
        }
        if !Owned(j, destination) {
          return Failed(OwnershipChanged);
        }
        j := j.(phase := RollingBack);
        var _ :- WriteJournal(j);
        var _ :- Rename(true);
        if !Owned(j, stage) {
          return Failed(OwnershipChanged);
        }
      } else if stage.Some? {
        if j.phase != Planned && j.phase != RollingBack {
          return Failed(ToolMissing);
        }
        if !Owned(j, stage) {
          return Failed(OwnershipChanged);
        }
      } else {
        return Failed(ToolMissing);
      }
      var _ :- WriteJournal(j.(phase := RolledBack));
      r := Done(());
    }

    /** Any publications, rollbacks and inspections, each killed anywhere: once there is a
        journal, every inspection is accepted, and the tree is where the journal says. */
    method RunAll(commands: seq<Command>) returns (inspections: seq<Reply<Tree>>)
      requires Valid()
      modifies this
      ensures Conserved()
      ensures |inspections| == Inspections(commands)
      ensures old(journal).Some? ==> forall r | r in inspections :: r.Done?
      ensures Unkilled(old(script)) ==> Here() == AfterAll(old(Here()), commands)
    {
      inspections := [];
      for i := 0 to |commands|
        invariant Conserved() && |inspections| == Inspections(commands[..i])
        invariant old(journal).Some? ==> journal.Some? && forall r | r in inspections :: r.Done?
        invariant Unkilled(old(script)) ==> Unkilled(script) && Here() == AfterAll(old(Here()), commands[..i])
      {
        assert commands[..i + 1][..i] == commands[..i];
        match commands[i] {
          case Publish =>
            var _ := PublishComposed();
          case RollBackTool =>
            var _ := RollbackComposed();
          case Inspect =>
            var r := InspectPublication();
            inspections := inspections + [r];
        }
      }
      assert commands[..|commands|] == commands;
    }

    /** Rerun the rollback of a recorded publication until it is not killed: it completes. */
    method RollbackUntilDone()
      requires Valid() && journal.Some?
      modifies this
      ensures Conserved() && journal.value.phase == RolledBack
      ensures Owned(journal.value, stage) && destination.None?
    {
      var r: Reply<()> := Killed;
      while r.Killed?
        invariant Conserved() && !r.Failed?
        invariant r.Done? ==> journal.value.phase == RolledBack && Owned(journal.value, stage) && destination.None?
        decreases |script|, r.Killed?
      {
        r := RollbackComposed();
      }
    }
  }
}

/** The withdrawal of all owners, in one order, by a process that can die anywhere. */
module Rollback {
  import opened Outcomes
  import opened BootstrapState
  import opened Owners

  const CHECKPOINTS: seq<Boundary> := [RollbackPatches, RollbackRuntime, RollbackThreading, RollbackTool]

  // What a withdrawal does ------------------------------------------------------------------------

  /** The owners after a withdrawal, or a part of one.  The tool is renamed away before
      anything of it is removed. */
  function Undone(owner: Owner, world: World, effect: Effect): World {
    if effect.Nothing? then world
    else match owner
      case PatchOwner => world.(patches := world.patches.(targets := if effect.All? then Original else Mixed))
      case RuntimeOwner =>
        if world.runtime.NoChild? then world
        else world.(runtime := world.runtime.(status := if effect.All? then ChildRolledBack else Unfinished))
      case ThreadingOwner => if effect.All? then world.(licensed := LicensedRolledBack) else world
      case ToolOwner => world.(tool := CreatedTool(Gone))
  }

  /** A withdrawal that dies in the middle leaves patched files of both kinds, and an unfinished
      child; the licensed file and the tool are gone or not. */
  lemma UndoneInPart(world: World)
    ensures Undone(PatchOwner, world, Part) == world.(patches := world.patches.(targets := Mixed))
    ensures world.runtime.Child? ==>
      Undone(RuntimeOwner, world, Part) == world.(runtime := Child(world.runtime.id, Unfinished))
    ensures Undone(ThreadingOwner, world, Part) == world
    ensures forall owner: Owner :: Undone(owner, world, Nothing) == world
  {
  }

  /** A rollback only withdraws: what it did not install or does not find pending stays. */
  ghost predicate Within(before: World, after: World) {
    && after.baseline == before.baseline && after.staged == before.staged
    && (after.tool == before.tool || (before.tool == CreatedTool(Intact) && after.tool == CreatedTool(Gone)))
    && (after.licensed == before.licensed
        || (ThreadingStatus(before.licensed) == Ok(Pending) && after.licensed == LicensedRolledBack))
    && (after.runtime == before.runtime
        || (before.runtime.Child? && after.runtime.Child? && after.runtime.id == before.runtime.id))
    && after.patches.backup == before.patches.backup
  }

  lemma WithinSelf(world: World)
    ensures Within(world, world)
  {
  }

  lemma WithinOn(a: World, b: World, c: World)
    requires Within(a, b) && Within(b, c)
    ensures Within(a, c)
  {
  }

  function Index(owner: Owner): (i: nat)
    ensures i < 4 && ORDER[i] == owner
  {
    match owner
    case PatchOwner => 0
    case RuntimeOwner => 1
    case ThreadingOwner => 2
    case ToolOwner => 3
  }

  lemma OthersStay(owner: Owner, other: Owner, state: State, world: World, plan: Plan, effect: Effect)
    requires other != owner
    ensures StatusOf(other, state, Undone(owner, world, effect), plan) == StatusOf(other, state, world, plan)
  {
  }

  /** A pending owner is settled once it is withdrawn; but the patches are not. */
  lemma UndoneSettles(owner: Owner, state: State, world: World, plan: Plan)
    requires StatusOf(owner, state, world, plan) == Ok(Pending)
    ensures Settled(owner, state, Undone(owner, world, All), plan) <==> owner != PatchOwner
    ensures owner == PatchOwner ==> StatusOf(owner, state, Undone(owner, world, All), plan).Err?
  {
  }

  // What a rollback promises -----------------------------------------------------------------------

  ghost predicate AllSettled(state: State, world: World, plan: Plan) {
    forall i | 0 <= i < 4 :: Settled(ORDER[i], state, world, plan)
  }

  /** An owner that a rollback without failures settles. */
  ghost predicate Restorable(owner: Owner, state: State, world: World, plan: Plan) {
    || Settled(owner, state, world, plan)
    || (owner != PatchOwner && StatusOf(owner, state, world, plan) == Ok(Pending))
  }

  ghost predicate AllRestorable(state: State, world: World, plan: Plan) {
    forall i | 0 <= i < 4 :: Restorable(ORDER[i], state, world, plan)
  }

  // What that means for the owners themselves ---------------------------------------------------------

  /** Nothing that this transaction installed is left. */
  ghost predicate Withdrawn(state: State, world: World, plan: Plan) {
    && world.licensed in {NoJournal, LicensedRolledBack}
    && (match world.tool
        case NoRecord(_) => state.disposition.None?
        case AdoptedTool(intact) => intact
        case CreatedTool(presence) => presence == Gone)
    && (if state.child.Some? then world.runtime == Child(state.child.value, ChildRolledBack)
        else state.plan.Some? && world.runtime.Child? ==> world.runtime.status in {Restored, ChildRolledBack, ChildAccepted})
    && (state.plan.Some? || state.backup.Some? ==>
          && state.backup.None? && world.patches.backup.None?
          && world.patches.targets == if plan.keepPatches then Patched else Original)
  }

  /** Everything that this transaction installed can still be withdrawn; the patches only if
      they were never applied. */
  ghost predicate Withdrawable(state: State, world: World, plan: Plan) {
    && world.licensed != LicensedRecovery
    && (match world.tool
        case NoRecord(_) => state.disposition.None?
        case AdoptedTool(intact) => intact
        case CreatedTool(presence) => presence != Altered)
    && (if state.child.Some? then
          && world.runtime.Child? && world.runtime.id == state.child.value
          && world.runtime.status in {Unfinished, ChildInstalled, Restored, ChildRolledBack}
        else state.plan.Some? && world.runtime.Child? ==>
          world.runtime.status in {Unfinished, ChildInstalled, Restored, ChildRolledBack, ChildAccepted})
    && (state.plan.Some? || state.backup.Some? ==>
          && state.backup.None? && world.patches.backup.None?
          && world.patches.targets == if plan.keepPatches then Patched else Original)
  }

  /** All owners are settled exactly when nothing is left. */
  lemma SettledMeans(state: State, world: World, plan: Plan)
    ensures AllSettled(state, world, plan) <==> Withdrawn(state, world, plan)
  {
    hide AllSettled;
    SettledEach(state, world, plan);
  }

  /** An owner is rolled back, rather than of no concern, exactly if what it had made was undone. */
  lemma RolledBackMeans(state: State, world: World, plan: Plan)
    ensures StatusOf(PatchOwner, state, world, plan) == Ok(RolledBackStatus) <==>
      && (state.backup.Some? || state.plan.Some?) && !plan.keepPatches
      && world.patches.targets == Original && state.backup.None? && world.patches.backup.None?
    ensures StatusOf(RuntimeOwner, state, world, plan) == Ok(RolledBackStatus) <==>
      state.child.Some? && world.runtime == Child(state.child.value, ChildRolledBack)
    ensures StatusOf(ThreadingOwner, state, world, plan) == Ok(RolledBackStatus) <==> world.licensed == LicensedRolledBack
    ensures StatusOf(ToolOwner, state, world, plan) == Ok(RolledBackStatus) <==> world.tool == CreatedTool(Gone)
  {
  }

  lemma SettledEach(state: State, world: World, plan: Plan)
    ensures AllSettled(state, world, plan) <==>
      && Settled(PatchOwner, state, world, plan) && Settled(RuntimeOwner, state, world, plan)
      && Settled(ThreadingOwner, state, world, plan) && Settled(ToolOwner, state, world, plan)
  {
    hide Settled;
    assert ORDER[0] == PatchOwner && ORDER[1] == RuntimeOwner && ORDER[2] == ThreadingOwner && ORDER[3] == ToolOwner;
  }

  lemma RestorableEach(state: State, world: World, plan: Plan)
    ensures AllRestorable(state, world, plan) <==>
      && Restorable(PatchOwner, state, world, plan) && Restorable(RuntimeOwner, state, world, plan)
      && Restorable(ThreadingOwner, state, world, plan) && Restorable(ToolOwner, state, world, plan)
  {
    hide Restorable;
    assert ORDER[0] == PatchOwner && ORDER[1] == RuntimeOwner && ORDER[2] == ThreadingOwner && ORDER[3] == ToolOwner;
  }

  /** All owners can be settled exactly when everything can be withdrawn. */
  lemma RestorableMeans(state: State, world: World, plan: Plan)
    ensures AllRestorable(state, world, plan) <==> Withdrawable(state, world, plan)
  {
    hide AllRestorable, Restorable;
    RestorableEach(state, world, plan);
    RestorablePatches(state, world, plan);
    RestorableRuntime(state, world, plan);
    RestorableThreading(state, world, plan);
    RestorableTool(state, world, plan);
  }

  /** The licensed file can be withdrawn unless its own transaction was given up. */
  lemma RestorableThreading(state: State, world: World, plan: Plan)
    ensures Restorable(ThreadingOwner, state, world, plan) <==> world.licensed != LicensedRecovery
  {
  }

  /** The tool can be withdrawn unless it was altered, or its record is lost. */
  lemma RestorableTool(state: State, world: World, plan: Plan)
    ensures Restorable(ToolOwner, state, world, plan) <==>
      match world.tool
      case NoRecord(_) => state.disposition.None?
      case AdoptedTool(intact) => intact
      case CreatedTool(presence) => presence != Altered
  {
  }

  /** The four looks before anything is withdrawn, all of them without a complaint. */
  ghost predicate Preflown(entries: seq<Entry>) {
    4 <= |entries| && forall i | 0 <= i < 4 ::
      entries[i].Look? && entries[i].looked == ORDER[i] && entries[i].status.Ok? && entries[i].status != Ok(AcceptedStatus)
  }

  /** All four owners are looked at first, in their order. */
  ghost predicate FourLooks(entries: seq<Entry>) {
    |entries| >= 4 && forall i | 0 <= i < 4 :: entries[i].Look? && entries[i].looked == ORDER[i]
  }

  /** An owner is withdrawn only when all four were looked at, when it is pending, and
      when those before it are settled. */
  ghost predicate Orderly(entries: seq<Entry>, plan: Plan) {
    forall k | 0 <= k < |entries| && !entries[k].Look? ::
      && entries[k].Undo? && 4 <= k && Preflown(entries)
      && StatusOf(entries[k].undone, entries[k].state, entries[k].world, plan) == Ok(Pending)
      && forall j | 0 <= j < Index(entries[k].undone) :: Settled(ORDER[j], entries[k].state, entries[k].world, plan)
  }

  // The driver --------------------------------------------------------------------------------------

  /** Look at one owner. */
  method Inspect(m: Machine, owner: Owner, state: State) returns (r: Reply<Result<Status, CoordinatorError>>)
    modifies m`script, m`durable, m`log
    ensures Advances(old(m.script), m.script) && Marked(old(m.durable), m.durable)
    ensures Unmarked(old(m.script)) ==> m.durable == old(m.durable)
    ensures r.Done? ==> m.log == old(m.log) + [Look(owner, r.value)]
    ensures r.Done? && r.value.Ok? ==> r.value == StatusOf(owner, state, m.world, m.plan)
    ensures !r.Done? ==> m.log == old(m.log) && r.Killed? && |m.script| < |old(m.script)|
    ensures Gentle(old(m.script)) && r.Done? ==> r.value == StatusOf(owner, state, m.world, m.plan)
    ensures Steady(old(m.script)) ==> r.Done?
    ensures Upcoming(old(m.script)).Fail? ==> r == Done(Err(OwnerFailed))
  {
    var e := m.Next();
    if e.Die? {
      return Killed;
    }
    var status := if e.Fail? then Err(OwnerFailed) else StatusOf(owner, state, m.world, m.plan);
    m.log := m.log + [Look(owner, status)];
    r := Done(status);
  }

  /** Withdraw one owner. */
  method Withdraw(m: Machine, owner: Owner, state: State) returns (r: Reply<()>)
    requires StatusOf(owner, state, m.world, m.plan) == Ok(Pending)
    modifies m`script, m`durable, m`log, m`world
    ensures Advances(old(m.script), m.script) && Marked(old(m.durable), m.durable)
    ensures Unmarked(old(m.script)) ==> m.durable == old(m.durable)
    ensures m.log == old(m.log) + [Undo(owner, state, old(m.world))]
    ensures exists effect :: m.world == Undone(owner, old(m.world), effect)
    ensures Within(old(m.world), m.world)
    ensures if owner == PatchOwner && old(m.world.patches.backup != BackupPath(state, m.world.patches)) then
              r == Failed(OwnerFailed) && m.world == old(m.world)
            else
              && m.world == Undone(owner, old(m.world), EffectOf(Upcoming(old(m.script))))
              && r == match Upcoming(old(m.script)) case Die(_) => Killed case Fail(_) => Failed(OwnerFailed) case _ => Done(())
    ensures r.Done? ==> m.world == Undone(owner, old(m.world), All)
    ensures r.Killed? ==> |m.script| < |old(m.script)|
    ensures Steady(old(m.script)) ==> !r.Killed?
    ensures Gentle(old(m.script)) && r.Failed? ==> owner == PatchOwner
  {
    m.log := m.log + [Undo(owner, state, m.world)];
    assert m.world == Undone(owner, m.world, Nothing);
    if owner == PatchOwner && m.world.patches.backup != BackupPath(state, m.world.patches) {
      return Failed(OwnerFailed);
    }
    var e := m.Next();
    if e.Die? {
      m.world := Undone(owner, m.world, e.effect);
      r := Killed;
    } else if e.Fail? {
      m.world := Undone(owner, m.world, e.effect);
      r := Failed(OwnerFailed);
    } else {
      m.world := Undone(owner, m.world, All);
      r := Done(());
    }
  }

  /** Give the transaction up; the caller fails with its own error. */
  method GiveUp(m: Machine, state: State) returns (killed: bool)
    requires Marked(state, m.durable) && !Terminal(state.phase) && Sane(state)
    modifies m`script, m`durable
    ensures Advances(old(m.script), m.script) && Marked(state, m.durable)
    ensures killed ==> |m.script| < |old(m.script)|
    ensures Steady(old(m.script)) ==> !killed
    ensures Gentle(old(m.script)) && old(m.durable) == state && !killed ==> m.durable.phase == RecoveryRequired
  {
    GentleUnmarked(m.script);
    killed := false;
    if state.phase != RecoveryRequired {
      RecoveryMarks(state);
      var r := m.Commit(state, RecoveryRequired, NOTHING);
      killed := r.Killed?;
    }
  }

  /** Only the runtime can be accepted: the child that the state names. */
  lemma AcceptedMeans(owner: Owner, state: State, world: World, plan: Plan)
    ensures StatusOf(owner, state, world, plan) == Ok(AcceptedStatus) <==>
      owner == RuntimeOwner && state.child.Some? && world.runtime == Child(state.child.value, ChildAccepted)
    ensures StatusOf(owner, state, world, plan).Ok? || StatusOf(owner, state, world, plan) == Err(Ambiguous(owner))
  {
  }

  ghost predicate ChildIsAccepted(state: State, world: World) {
    state.child.Some? && world.runtime == Child(state.child.value, ChildAccepted)
  }

  lemma UnclearAt(state: State, world: World, plan: Plan) returns (j: nat)
    requires Unclear(state, world, plan)
    ensures j < 4 && StatusOf(ORDER[j], state, world, plan).Err?
  {
    var owner: Owner :| StatusOf(owner, state, world, plan).Err?;
    j := Index(owner);
  }

  /** Some owner cannot be told apart from what another transaction, or nobody, left. */
  ghost predicate Unclear(state: State, world: World, plan: Plan) {
    exists owner: Owner :: StatusOf(owner, state, world, plan).Err?
  }

  /** All four owners are looked at before anything changes. */
  method Preflight(m: Machine, state: State)
    returns (r: Reply<Option<CoordinatorError>>, ghost entries: seq<Entry>)
    modifies m`script, m`durable, m`log
    ensures Advances(old(m.script), m.script) && Marked(old(m.durable), m.durable)
    ensures Unmarked(old(m.script)) ==> m.durable == old(m.durable)
    ensures m.log == old(m.log) + entries && (forall k | 0 <= k < |entries| :: entries[k].Look?)
    ensures !r.Failed? && (r.Killed? ==> |m.script| < |old(m.script)|) && (Steady(old(m.script)) ==> r.Done?)
    ensures r.Done? && r.value.None? ==> Preflown(entries) && |entries| == 4
    ensures r.Done? ==> FourLooks(entries)
    ensures r.Done? && r.value.Some? && Gentle(old(m.script)) ==> !AllRestorable(state, m.world, m.plan)
    ensures r.Done? && Gentle(old(m.script)) ==>
      && (r.value == Some(AlreadyAccepted) <==> ChildIsAccepted(state, m.world))
      && (Unclear(state, m.world, m.plan) ==> r.value.Some?)
  {
    entries := [];
    var accepted := false;
    var first: Option<CoordinatorError> := None;
    for i := 0 to 4
      invariant Advances(old(m.script), m.script) && Marked(old(m.durable), m.durable)
      invariant Unmarked(old(m.script)) ==> m.durable == old(m.durable)
      invariant m.log == old(m.log) + entries && |entries| == i
      invariant forall k | 0 <= k < i :: entries[k].Look? && entries[k].looked == ORDER[k]
      invariant first.None? && !accepted ==> forall k | 0 <= k < i ::
        entries[k].looked == ORDER[k] && entries[k].status.Ok? && entries[k].status != Ok(AcceptedStatus)
      invariant Gentle(old(m.script)) && (first.Some? || accepted) ==> !AllRestorable(state, m.world, m.plan)
      invariant Gentle(old(m.script)) ==>
        && (accepted <==> 1 < i && ChildIsAccepted(state, m.world)) && first != Some(AlreadyAccepted)
        && forall j | 0 <= j < i && StatusOf(ORDER[j], state, m.world, m.plan).Err? :: first.Some?
    {
      hide StatusOf;
      ghost var script := m.script;
      AcceptedMeans(ORDER[i], state, m.world, m.plan);
      var looked := Inspect(m, ORDER[i], state);
      AdvancesOn(old(m.script), script, m.script);
      if looked.Killed? {
        return Killed, entries;
      }
      var status := looked.value;
      entries := entries + [Look(ORDER[i], status)];
      if status.Err? {
        first := if first.None? then Some(status.error) else first;
      } else if status.value.AcceptedStatus? {
        accepted := true;
      }
    }
    if Unclear(state, m.world, m.plan) {
      ghost var j := UnclearAt(state, m.world, m.plan);
      assert Gentle(old(m.script)) ==> first.Some?;
    }
    r := Done(if accepted then Some(AlreadyAccepted) else first);
  }

  lemma CheckpointOk(state: State, target: Phase, boundary: Boundary)
    requires Sane(state) && state.phase == RollingBack && boundary !in state.boundaries
    requires if boundary == AllRolledBack then target == RolledBack else target == RollingBack
    ensures var next := state.(phase := target, boundaries := state.boundaries + [boundary]);
      Transitioned(state, state, state.phase, target, WithBoundary(state, boundary)) == Ok(next)
      && Sane(next) && Continues(state, next)
  {
    hide Reaches;
    ReachesStep(state, state.(phase := target, boundaries := state.boundaries + [boundary]));
  }

  lemma BeginOk(state: State, target: Phase)
    requires Sane(state) && !Terminal(state.phase) && state.phase != target
    requires target == RollingBack || target == RecoveryRequired
    requires target == RecoveryRequired ==> state.phase != RecoveryRequired
    ensures var next := state.(phase := target);
      Transitioned(state, state, state.phase, target, NOTHING) == Ok(next) && Sane(next) && Continues(state, next)
  {
    hide Reaches;
    ReachesStep(state, state.(phase := target));
  }

  /** Legal steps led from a to b, and none of them changed what matters to the owners. */
  ghost predicate Continues(a: State, b: State) {
    SameOwners(a, b) && Reaches(a, b)
  }

  /** The transaction is still there to be rolled back. */
  ghost predicate Open(state: State, durable: State) {
    Continues(state, durable) && Sane(durable) && !Terminal(durable.phase)
  }

  lemma MarkedOpen(state: State, durable: State)
    requires Marked(state, durable) && Sane(state) && !Terminal(state.phase)
    ensures Open(state, durable)
  {
    hide Reaches;
    MarkedOnward(state, durable);
  }

  /** Note that one owner is settled. */
  method Checkpoint(m: Machine, state: State, boundary: Boundary) returns (r: Reply<State>)
    requires Marked(state, m.durable) && Sane(state) && state.phase == RollingBack && boundary != AllRolledBack
    modifies m`script, m`durable
    ensures Advances(old(m.script), m.script) && Open(state, m.durable)
    ensures r.Done? ==>
      && Marked(r.value, m.durable) && Sane(r.value) && r.value.phase == RollingBack && Continues(state, r.value)
    ensures r.Failed? ==> Marked(state, m.durable)
    ensures r.Killed? ==> |m.script| < |old(m.script)|
    ensures Unmarked(old(m.script)) && old(m.durable) == state ==> (r.Done? ==> m.durable == r.value)
    ensures Unmarked(old(m.script)) && old(m.durable) == state && r.Failed? ==> m.durable == state
    ensures Gentle(old(m.script)) && old(m.durable) == state ==> !r.Failed?
    ensures Steady(old(m.script)) ==> !r.Killed?
    ensures r.Done? ==>
      r.value == if boundary in state.boundaries then state else state.(boundaries := state.boundaries + [boundary])
  {
    MarkedOpen(state, m.durable);
    OpenSelf(state);
    if boundary in state.boundaries {
      return Done(state);
    }
    CheckpointOk(state, RollingBack, boundary);
    hide Transitioned, Sane, Continues, Steady, Gentle, Unmarked, Advances;
    ghost var before := m.durable;
    r := m.Commit(state, RollingBack, WithBoundary(state, boundary));
    if !r.Done? {
      if Marked(before, m.durable) {
        MarkedOn(state, before, m.durable);
        MarkedOpen(state, m.durable);
      }
    } else {
      MarkedOpen(r.value, m.durable);
    }
  }

  ghost predicate UndoneInTurn(more: seq<Entry>, plan: Plan) {
    forall k | 0 <= k < |more| && !more[k].Look? ::
      && more[k].Undo? && StatusOf(more[k].undone, more[k].state, more[k].world, plan) == Ok(Pending)
      && forall j | 0 <= j < Index(more[k].undone) :: Settled(ORDER[j], more[k].state, more[k].world, plan)
  }

  lemma TurnsJoin(a: seq<Entry>, b: seq<Entry>, plan: Plan)
    requires UndoneInTurn(a, plan) && UndoneInTurn(b, plan)
    ensures UndoneInTurn(a + b, plan)
  {
  }

  /** After a withdrawal, complete or not, the same owners can be restored as before. */
  lemma RestorableStays(owner: Owner, state: State, world: World, plan: Plan, effect: Effect)
    requires StatusOf(owner, state, world, plan) == Ok(Pending)
    ensures forall other: Owner ::
      Restorable(other, state, Undone(owner, world, effect), plan) <==> Restorable(other, state, world, plan)
  {
    forall other: Owner
      ensures Restorable(other, state, Undone(owner, world, effect), plan) <==> Restorable(other, state, world, plan)
    {
      if other != owner {
        OthersStay(owner, other, state, world, plan, effect);
      } else if effect.All? {
        UndoneSettles(owner, state, world, plan);
      }
    }
  }

  lemma EarlierStay(owner: Owner, state: State, world: World, plan: Plan, effect: Effect)
    requires forall j | 0 <= j < Index(owner) :: Settled(ORDER[j], state, world, plan)
    ensures forall j | 0 <= j < Index(owner) :: Settled(ORDER[j], state, Undone(owner, world, effect), plan)
  {
    forall j | 0 <= j < Index(owner) ensures Settled(ORDER[j], state, Undone(owner, world, effect), plan) {
      OthersStay(owner, ORDER[j], state, world, plan, effect);
    }
  }

  /** Settle one owner: look, withdraw it when it is pending, and look again. */
  method Settle(m: Machine, state: State, owner: Owner) returns (r: Reply<()>, ghost more: seq<Entry>)
    requires Marked(state, m.durable)
    requires forall j | 0 <= j < Index(owner) :: Settled(ORDER[j], state, m.world, m.plan)
    modifies m`script, m`durable, m`log, m`world
    ensures Within(old(m.world), m.world)
    ensures Advances(old(m.script), m.script) && Marked(state, m.durable)
    ensures Unmarked(old(m.script)) ==> m.durable == old(m.durable)
    ensures m.log == old(m.log) + more && UndoneInTurn(more, m.plan)
    ensures forall j | 0 <= j < Index(owner) :: Settled(ORDER[j], state, m.world, m.plan)
    ensures r.Done? ==> Settled(owner, state, m.world, m.plan)
    ensures r.Killed? ==> |m.script| < |old(m.script)|
    ensures Gentle(old(m.script)) ==>
      forall other: Owner ::
        Restorable(other, state, m.world, m.plan) <==> Restorable(other, state, old(m.world), m.plan)
    ensures Gentle(old(m.script)) && r.Failed? ==> !Restorable(owner, state, m.world, m.plan)
    ensures Steady(old(m.script)) ==> !r.Killed?
  {
    hide StatusOf, Undone, Marked, Advances, Index, Within;
    GentleUnmarked(m.script);
    WithinSelf(m.world);
    ghost var script := m.script;
    ghost var durable := m.durable;
    more := [];
    var looked := Inspect(m, owner, state);
    MarkedOn(state, durable, m.durable);
    if looked.Killed? {
      return Killed, more;
    }
    var status := looked.value;
    more := [Look(owner, status)];
    if status.Err? || status.value.AcceptedStatus? {
      return Failed(Ambiguous(owner)), more;
    }
    if status.value.Pending? {
      ghost var before := m.world;
      durable := m.durable;
      ghost var script1 := m.script;
      var done := Withdraw(m, owner, state);
      AdvancesOn(script, script1, m.script);
      ghost var effect :| m.world == Undone(owner, before, effect);
      MarkedOn(state, durable, m.durable);
      EarlierStay(owner, state, before, m.plan, effect);
      RestorableStays(owner, state, before, m.plan, effect);
      more := more + [Undo(owner, state, before)];
      if !done.Done? {
        return done, more;
      }
      UndoneSettles(owner, state, before, m.plan);
      durable := m.durable;
      ghost var script2 := m.script;
      looked := Inspect(m, owner, state);
      AdvancesOn(script, script2, m.script);
      MarkedOn(state, durable, m.durable);
      if looked.Killed? {
        return Killed, more;
      }
      status := looked.value;
      more := more + [Look(owner, status)];
      if status.Err? || !(status.value.RolledBackStatus? || status.value.NotApplicable?) {
        return Failed(Ambiguous(owner)), more;
      }
    }
    r := Done(());
  }

  /** The boundary that says that an owner is settled. */
  ghost function NoteOf(owner: Owner): Boundary {
    match owner
    case PatchOwner => RollbackPatches
    case RuntimeOwner => RollbackRuntime
    case ThreadingOwner => RollbackThreading
    case ToolOwner => RollbackTool
  }

  ghost predicate AllNoted(state: State) {
    {RollbackPatches, RollbackRuntime, RollbackThreading, RollbackTool} <= set b | b in state.boundaries
  }

  lemma NotesOf(state: State)
    requires forall i | 0 <= i < 4 :: NoteOf(ORDER[i]) in state.boundaries
    ensures AllNoted(state)
  {
    assert NoteOf(ORDER[0]) == RollbackPatches && NoteOf(ORDER[1]) == RollbackRuntime;
    assert NoteOf(ORDER[2]) == RollbackThreading && NoteOf(ORDER[3]) == RollbackTool;
  }

  lemma NoteAt(owner: Owner)
    ensures CHECKPOINTS[Index(owner)] == NoteOf(owner)
  {
  }

  /** Settle one owner and note that it is; what cannot be settled ends the attempt. */
  method SettleAndNote(m: Machine, state: State, owner: Owner) returns (r: Reply<State>, ghost more: seq<Entry>)
    requires Marked(state, m.durable) && Sane(state) && state.phase == RollingBack
    requires forall j | 0 <= j < Index(owner) :: Settled(ORDER[j], state, m.world, m.plan)
    modifies m`script, m`durable, m`log, m`world
    ensures Within(old(m.world), m.world)
    ensures Advances(old(m.script), m.script) && Open(state, m.durable)
    ensures m.log == old(m.log) + more && UndoneInTurn(more, m.plan)
    ensures r.Done? ==>
      && Marked(r.value, m.durable) && Sane(r.value) && r.value.phase == RollingBack && Continues(state, r.value)
      && forall j | 0 <= j <= Index(owner) :: Settled(ORDER[j], r.value, m.world, m.plan)
    ensures r.Killed? ==> |m.script| < |old(m.script)|
    ensures Gentle(old(m.script)) ==>
      forall other: Owner ::
        Restorable(other, state, m.world, m.plan) <==> Restorable(other, state, old(m.world), m.plan)
    ensures Gentle(old(m.script)) && old(m.durable) == state && r.Failed? ==>
      !Restorable(owner, state, m.world, m.plan) && m.durable.phase == RecoveryRequired
    ensures Unmarked(old(m.script)) && old(m.durable) == state && r.Done? ==> m.durable == r.value
    ensures Steady(old(m.script)) ==> !r.Killed?
    ensures r.Done? ==>
      && state.boundaries <= r.value.boundaries <= state.boundaries + [NoteOf(owner)]
      && NoteOf(owner) in r.value.boundaries
  {
    hide Within, Settled, Marked, Sane, Continues, Open, Advances, UndoneInTurn, Gentle, Steady, Unmarked, Restorable;
    GentleUnmarked(m.script);
    ghost var script0 := m.script;
    var settled, entries := Settle(m, state, owner);
    more := entries;
    MarkedOpen(state, m.durable);
    if settled.Killed? {
      return Killed, more;
    }
    ghost var script1 := m.script;
    if settled.Done? {
      NoteAt(owner);
      r := Checkpoint(m, state, CHECKPOINTS[Index(owner)]);
      StepAdvances(script0, script1, m.script);
      if r.Done? {
        OpenSelf(state);
        SameSettled(state, state, r.value, m.world, m.plan);
        assert ORDER[Index(owner)] == owner;
      }
    } else {
      r := Failed(settled.error);
    }
    if r.Failed? {
      script1 := m.script;
      var killed := GiveUp(m, state);
      StepAdvances(script0, script1, m.script);
      MarkedOpen(state, m.durable);
      r := if killed then Killed else r;
    }
  }

  /** Settle all owners, one after the other, and note each of them. */
  method SettleAll(m: Machine, start: State) returns (r: Reply<State>, ghost more: seq<Entry>)
    requires Marked(start, m.durable) && Sane(start) && start.phase == RollingBack
    modifies m`script, m`durable, m`log, m`world
    ensures Within(old(m.world), m.world)
    ensures Advances(old(m.script), m.script) && Open(start, m.durable)
    ensures m.log == old(m.log) + more && UndoneInTurn(more, m.plan)
    ensures r.Done? ==>
      && Marked(r.value, m.durable) && Sane(r.value) && r.value.phase == RollingBack
      && Continues(start, r.value) && AllSettled(r.value, m.world, m.plan)
    ensures r.Killed? ==> |m.script| < |old(m.script)|
    ensures Gentle(old(m.script)) ==>
      (AllRestorable(start, m.world, m.plan) <==> AllRestorable(start, old(m.world), m.plan))
    ensures Gentle(old(m.script)) && old(m.durable) == start && r.Failed? ==>
      !AllRestorable(start, m.world, m.plan) && m.durable.phase == RecoveryRequired
    ensures Unmarked(old(m.script)) && old(m.durable) == start && r.Done? ==> m.durable == r.value
    ensures Steady(old(m.script)) ==> !r.Killed?
    ensures r.Done? ==> AllNoted(r.value)
  {
    hide Within, Settled, Marked, Sane, Continues, Open, Advances, UndoneInTurn, Gentle, Steady, Unmarked, Restorable,
      AllRestorable, Index;
    var state := start;
    ghost var script := m.script;
    ghost var exact := Unmarked(m.script) && m.durable == start;
    more := [];
    NotTerminal(start.phase);
    MarkedOpen(start, m.durable);
    SelfAdvances(m.script);
    WithinSelf(m.world);
    GentleUnmarked(m.script);
    NothingUndone(m.plan);
    OpenSelf(start);
    for i := 0 to 4
      invariant Within(old(m.world), m.world)
      invariant Advances(script, m.script) && Marked(state, m.durable) && Open(start, m.durable)
      invariant Sane(state) && state.phase == RollingBack && Continues(start, state)
      invariant m.log == old(m.log) + more && UndoneInTurn(more, m.plan)
      invariant forall j | 0 <= j < i :: Settled(ORDER[j], state, m.world, m.plan) && NoteOf(ORDER[j]) in state.boundaries
      invariant Gentle(script) ==>
        (AllRestorable(start, m.world, m.plan) <==> AllRestorable(start, old(m.world), m.plan))
      invariant exact ==> m.durable == state && Unmarked(m.script)
    {
      ghost var before, script1 := m.world, m.script;
      OrderIndex(i);
      ghost var entries;
      r, entries := SettleAndNote(m, state, ORDER[i]);
      WithinOn(old(m.world), before, m.world);
      StepAdvances(script, script1, m.script);
      TurnsJoin(more, entries, m.plan);
      more := more + entries;
      OpenOn(start, state, m.durable);
      if Gentle(script) {
        SameRestorable(start, state, before, m.world, m.plan);
      }
      if !r.Done? {
        if r.Failed? && Gentle(script) && exact {
          NotRestorable(start, state, ORDER[i], m.world, m.plan);
        }
        return;
      }
      SameSettled(start, state, r.value, m.world, m.plan);
      state := r.value;
    }
    NotesOf(state);
    r := Done(state);
  }

  lemma StepAdvances(a: seq<Event>, b: seq<Event>, c: seq<Event>)
    requires Advances(a, b) && Advances(b, c)
    ensures Advances(a, c) && (Unmarked(a) ==> Unmarked(b) && Unmarked(c)) && (Gentle(a) ==> Gentle(b) && Gentle(c))
    ensures Steady(a) ==> Steady(b) && Steady(c)
    ensures |c| <= |b| <= |a|
  {
  }

  lemma NothingUndone(plan: Plan)
    ensures UndoneInTurn([], plan)
  {
  }

  lemma OpenSelf(state: State)
    ensures Continues(state, state)
  {
    ReachesSelf(state);
  }

  lemma OpenOn(a: State, b: State, c: State)
    requires Continues(a, b) && Open(b, c)
    ensures Open(a, c)
  {
    hide Sane;
    SameOn(a, b, c);
  }

  lemma OrderIndex(i: nat)
    requires i < 4
    ensures Index(ORDER[i]) == i
  {
  }

  lemma SameSettled(start: State, a: State, b: State, world: World, plan: Plan)
    requires Continues(a, b) && Continues(start, a)
    ensures Continues(start, b)
    ensures forall owner: Owner :: Settled(owner, a, world, plan) <==> Settled(owner, b, world, plan)
  {
    hide Reaches;
    SameOn(start, a, b);
    forall owner: Owner ensures Settled(owner, a, world, plan) <==> Settled(owner, b, world, plan) {
      SameStatus(owner, a, b, world, plan);
    }
  }

  lemma SameRestorable(start: State, state: State, before: World, after: World, plan: Plan)
    requires Continues(start, state)
    requires forall owner: Owner :: Restorable(owner, state, after, plan) <==> Restorable(owner, state, before, plan)
    ensures AllRestorable(start, after, plan) <==> AllRestorable(start, before, plan)
  {
    hide Reaches;
    forall owner: Owner
      ensures Restorable(owner, start, after, plan) <==> Restorable(owner, start, before, plan)
    {
      SameStatus(owner, start, state, before, plan);
      SameStatus(owner, start, state, after, plan);
      assert Restorable(owner, state, after, plan) <==> Restorable(owner, state, before, plan);
    }
  }

  lemma NotRestorable(start: State, state: State, owner: Owner, world: World, plan: Plan)
    requires Continues(start, state) && !Restorable(owner, state, world, plan)
    ensures !AllRestorable(start, world, plan)
  {
    hide Reaches;
    SameStatus(owner, start, state, world, plan);
    assert ORDER[Index(owner)] == owner;
  }

  lemma JoinOrderly(entries: seq<Entry>, more: seq<Entry>, plan: Plan)
    requires Orderly(entries, plan) && Preflown(entries) && UndoneInTurn(more, plan)
    ensures Orderly(entries + more, plan)
  {
  }

  lemma LooksOnly(looks: seq<Entry>, plan: Plan)
    requires forall k | 0 <= k < |looks| :: looks[k].Look?
    ensures Orderly(looks, plan)
  {
  }

  lemma OpenMeans(state: State, durable: State)
    requires Open(state, durable)
    ensures Continues(state, durable) && Sane(durable) && !Terminal(durable.phase)
    ensures durable.phase != RolledBack && durable.phase != Accepted
  {
  }

  lemma SameAll(a: State, b: State, world: World, plan: Plan)
    requires Continues(a, b)
    ensures AllRestorable(a, world, plan) <==> AllRestorable(b, world, plan)
    ensures AllSettled(a, world, plan) <==> AllSettled(b, world, plan)
    ensures AllSettled(a, world, plan) ==> AllRestorable(a, world, plan)
  {
    hide Reaches;
    forall owner: Owner ensures StatusOf(owner, a, world, plan) == StatusOf(owner, b, world, plan) {
      SameStatus(owner, a, b, world, plan);
    }
    hide StatusOf;
  }

  lemma SameOn(a: State, b: State, c: State)
    requires Continues(a, b) && Continues(b, c)
    ensures Continues(a, c)
  {
    hide Reaches;
    ReachesOn(a, b, c);
  }

  lemma NotTerminal(phase: Phase)
    ensures Terminal(phase) <==> phase == Accepted || phase == RolledBack
  {
  }

  /** Enter the phase of the rollback. */
  method Begin(m: Machine, state: State) returns (r: Reply<State>)
    requires Marked(state, m.durable) && Sane(state) && !Terminal(state.phase)
    modifies m`script, m`durable
    ensures Advances(old(m.script), m.script) && Open(state, m.durable)
    ensures r.Done? ==>
      && Marked(r.value, m.durable) && Sane(r.value) && r.value.phase == RollingBack && Continues(state, r.value)
    ensures r.Killed? ==> |m.script| < |old(m.script)|
    ensures Unmarked(old(m.script)) && old(m.durable) == state && r.Done? ==> m.durable == r.value
    ensures Gentle(old(m.script)) && old(m.durable) == state ==> !r.Failed?
    ensures Steady(old(m.script)) ==> !r.Killed?
  {
    MarkedOpen(state, m.durable);
    OpenSelf(state);
    if state.phase == RollingBack {
      return Done(state);
    }
    BeginOk(state, RollingBack);
    hide Transitioned, Sane, Continues, Steady, Gentle, Unmarked, Advances;
    ghost var before := m.durable;
    r := m.Commit(state, RollingBack, NOTHING);
    if !r.Done? {
      if Marked(before, m.durable) {
        MarkedOn(state, before, m.durable);
        MarkedOpen(state, m.durable);
      }
    } else {
      MarkedOpen(r.value, m.durable);
    }
  }

  /** Everything is settled: the transaction ends. */
  method End(m: Machine, state: State) returns (r: Reply<State>)
    requires Marked(state, m.durable) && Sane(state) && state.phase == RollingBack
    modifies m`script, m`durable
    ensures Advances(old(m.script), m.script)
    ensures Sane(m.durable) && Continues(state, m.durable) && m.durable.phase != Accepted
    ensures r.Done? ==> m.durable == r.value && r.value.phase == RolledBack
    ensures r.Killed? ==> |m.script| < |old(m.script)|
    ensures Gentle(old(m.script)) && old(m.durable) == state ==> !r.Failed?
    ensures Steady(old(m.script)) ==> !r.Killed?
    ensures m.durable.phase == RolledBack ==> m.durable.boundaries == state.boundaries + [AllRolledBack]
  {
    MarkedOpen(state, m.durable);
    CheckpointOk(state, RolledBack, AllRolledBack);
    hide Transitioned, Sane, Continues, Steady, Gentle, Unmarked, Advances;
    ghost var before := m.durable;
    r := m.Commit(state, RolledBack, WithBoundary(state, AllRolledBack));
    if !r.Done? {
      if Marked(before, m.durable) {
        MarkedOn(state, before, m.durable);
        MarkedOpen(state, m.durable);
      }
    }
  }

  // Rollback ------------------------------------------------------------------------------------------

  /** Settle everything and end the transaction. */
  method Complete(m: Machine, state: State) returns (r: Reply<State>, ghost more: seq<Entry>)
    requires Marked(state, m.durable) && Sane(state) && state.phase == RollingBack
    modifies m`script, m`durable, m`log, m`world
    ensures Within(old(m.world), m.world)
    ensures Advances(old(m.script), m.script)
    ensures Sane(m.durable) && Continues(state, m.durable) && m.durable.phase != Accepted
    ensures m.log == old(m.log) + more && UndoneInTurn(more, m.plan)
    ensures m.durable.phase == RolledBack ==> AllSettled(state, m.world, m.plan)
    ensures r.Done? ==> m.durable == r.value && r.value.phase == RolledBack
    ensures r.Killed? ==> |m.script| < |old(m.script)|
    ensures Gentle(old(m.script)) ==>
      (AllRestorable(state, m.world, m.plan) <==> AllRestorable(state, old(m.world), m.plan))
    ensures Gentle(old(m.script)) && old(m.durable) == state ==>
      && (r.Failed? ==> !AllRestorable(state, m.world, m.plan) && m.durable.phase == RecoveryRequired)
      && (r.Done? ==> AllRestorable(state, m.world, m.plan))
    ensures Steady(old(m.script)) ==> !r.Killed?
    ensures m.durable.phase == RolledBack ==> AllNoted(m.durable)
  {
    hide Within, Settled, Marked, Sane, Continues, Open, Advances, UndoneInTurn, Gentle, Steady, Unmarked, AllRestorable,
      AllSettled;
    ghost var script, script1 := m.script, m.script;
    GentleUnmarked(script);
    r, more := SettleAll(m, state);
    StepAdvances(script, script1, m.script);
    OpenMeans(state, m.durable);
    if r.Done? {
      script1 := m.script;
      var settled := r.value;
      r := End(m, settled);
      StepAdvances(script, script1, m.script);
      SameOn(state, settled, m.durable);
      SameAll(state, settled, m.world, m.plan);
    }
  }

  /** An outcome of a rollback by a process that has read the durable state. */
  ghost predicate Fair(start: State, durable: State, world: World, plan: Plan) {
    durable.phase == RolledBack ==> Continues(start, durable) && AllSettled(durable, world, plan)
  }

  /** One attempt under the lease, of a process that has just read the durable state. */
  method Attempt(m: Machine) returns (r: Reply<State>, ghost entries: seq<Entry>)
    requires Sane(m.durable) && !Terminal(m.durable.phase)
    modifies m`script, m`durable, m`log, m`world
    ensures Within(old(m.world), m.world)
    ensures Advances(old(m.script), m.script) && Sane(m.durable)
    ensures m.log == old(m.log) + entries && Orderly(entries, m.plan)
    ensures m.durable.phase != Accepted && Fair(old(m.durable), m.durable, m.world, m.plan)
    ensures m.durable.phase == RolledBack ==> Withdrawn(m.durable, m.world, m.plan)
    ensures r.Done? ==> m.durable == r.value && r.value.phase == RolledBack
    ensures r.Killed? ==> |m.script| < |old(m.script)|
    ensures Continues(old(m.durable), m.durable)
    ensures Steady(old(m.script)) && old(ChildIsAccepted(m.durable, m.world)) ==>
      r == Failed(AlreadyAccepted) && m.durable == old(m.durable) && m.world == old(m.world)
    ensures Steady(old(m.script)) && old(Unclear(m.durable, m.world, m.plan) && !ChildIsAccepted(m.durable, m.world)) ==>
      r.Failed? && m.durable.phase == RecoveryRequired && m.world == old(m.world)
    ensures Gentle(old(m.script)) ==>
      && (AllRestorable(old(m.durable), m.world, m.plan) <==> AllRestorable(old(m.durable), old(m.world), m.plan))
      && (r.Failed? ==> !AllRestorable(old(m.durable), m.world, m.plan))
      && (r.Failed? && r.error != AlreadyAccepted ==> m.durable.phase == RecoveryRequired)
      && (r.Done? ==> AllRestorable(old(m.durable), m.world, m.plan))
    ensures Steady(old(m.script)) ==> !r.Killed?
    ensures Steady(old(m.script)) ==> FourLooks(entries)
    ensures m.durable.phase == RolledBack ==> AllNoted(m.durable)
  {
    hide Withdrawn;
    hide Within, Settled, Marked, Sane, Continues, Open, Advances, UndoneInTurn, Gentle, Steady, Unmarked, Restorable,
      AllRestorable, Index, Orderly, Preflown, AllSettled, Terminal, Transitioned;
    var state := m.durable;
    OpenSelf(state);
    WithinSelf(m.world);
    ghost var script := m.script;
    GentleUnmarked(script);
    var preflight, looks := Preflight(m, state);
    entries := looks;
    LooksOnly(looks, m.plan);
    MarkedOpen(state, m.durable);
    OpenMeans(state, m.durable);
    if !preflight.Done? {
      return Killed, entries;
    }
    ghost var script1 := m.script;
    if preflight.value.Some? {
      r := Failed(preflight.value.value);
      if !preflight.value.value.AlreadyAccepted? {
        var killed := GiveUp(m, state);
        StepAdvances(script, script1, m.script);
        MarkedOpen(state, m.durable);
        OpenMeans(state, m.durable);
        r := if killed then Killed else r;
      }
      return;
    }
    ghost var more;
    r, more := Proceed(m, state);
    SettledMeans(m.durable, m.world, m.plan);
    StepAdvances(script, script1, m.script);
    JoinOrderly(entries, more, m.plan);
    entries := entries + more;
  }

  /** After a clean preflight: enter the phase, settle everything, end. */
  method Proceed(m: Machine, state: State) returns (r: Reply<State>, ghost more: seq<Entry>)
    requires Marked(state, m.durable) && Sane(state) && !Terminal(state.phase)
    modifies m`script, m`durable, m`log, m`world
    ensures Within(old(m.world), m.world)
    ensures Advances(old(m.script), m.script)
    ensures Sane(m.durable) && Continues(state, m.durable) && m.durable.phase != Accepted
    ensures m.log == old(m.log) + more && UndoneInTurn(more, m.plan)
    ensures m.durable.phase == RolledBack ==> AllSettled(m.durable, m.world, m.plan)
    ensures r.Done? ==> m.durable == r.value && r.value.phase == RolledBack
    ensures r.Killed? ==> |m.script| < |old(m.script)|
    ensures Gentle(old(m.script)) ==>
      (AllRestorable(state, m.world, m.plan) <==> AllRestorable(state, old(m.world), m.plan))
    ensures Gentle(old(m.script)) && old(m.durable) == state ==>
      && (r.Failed? ==> !AllRestorable(state, m.world, m.plan) && m.durable.phase == RecoveryRequired)
      && (r.Done? ==> AllRestorable(state, m.world, m.plan))
    ensures Steady(old(m.script)) ==> !r.Killed?
    ensures m.durable.phase == RolledBack ==> AllNoted(m.durable)
  {
    hide Within, Settled, Marked, Sane, Continues, Open, Advances, UndoneInTurn, Gentle, Steady, Unmarked, AllRestorable,
      AllSettled, Terminal;
    ghost var script, world := m.script, m.world;
    WithinSelf(world);
    GentleUnmarked(script);
    NothingUndone(m.plan);
    more := [];
    var begun := Begin(m, state);
    OpenMeans(state, m.durable);
    if !begun.Done? {
      return begun, more;
    }
    var rolling := begun.value;
    ghost var script1 := m.script;
    r, more := Complete(m, rolling);
    StepAdvances(script, script1, m.script);
    SameAll(state, rolling, world, m.plan);
    SameAll(state, rolling, m.world, m.plan);
    SameAll(rolling, m.durable, m.world, m.plan);
    SameOn(state, rolling, m.durable);
  }

  /** The rollback of a process whose caller has a copy of the state, and has confirmed. */
  method RollBack(m: Machine, caller: State, confirmed: bool) returns (r: Reply<State>, ghost entries: seq<Entry>)
    requires Sane(m.durable)
    modifies m`script, m`durable, m`log, m`world
    ensures Within(old(m.world), m.world)
    ensures Advances(old(m.script), m.script) && Sane(m.durable) && Continues(old(m.durable), m.durable)
    ensures m.log == old(m.log) + entries && Orderly(entries, m.plan)
    ensures caller != old(m.durable) || !confirmed || Terminal(caller.phase) ==>
      && m.durable == old(m.durable) && m.world == old(m.world) && entries == []
      && r == (if caller != old(m.durable) then Failed(StaleCopy)
               else if caller.phase == Accepted then Failed(AlreadyAccepted)
               else Done(caller))
    ensures Steady(old(m.script)) && confirmed && caller == old(m.durable) && !Terminal(caller.phase)
            && old(ChildIsAccepted(m.durable, m.world)) ==>
      r == Failed(AlreadyAccepted) && m.durable == old(m.durable) && m.world == old(m.world)
    ensures !Terminal(old(m.durable.phase)) ==>
      && m.durable.phase != Accepted && Fair(old(m.durable), m.durable, m.world, m.plan)
      && (r.Done? && confirmed ==> m.durable == r.value && r.value.phase == RolledBack)
      && (m.durable.phase == RolledBack ==> Withdrawn(m.durable, m.world, m.plan))
    ensures r.Killed? ==> |m.script| < |old(m.script)|
    ensures Gentle(old(m.script)) && caller == old(m.durable) && confirmed && !Terminal(caller.phase) ==>
      && (AllRestorable(caller, m.world, m.plan) <==> AllRestorable(caller, old(m.world), m.plan))
      && (r.Failed? ==> !AllRestorable(caller, m.world, m.plan))
      && (r.Failed? && r.error != AlreadyAccepted ==> m.durable.phase == RecoveryRequired)
      && (r.Done? ==> AllRestorable(caller, m.world, m.plan))
    ensures Steady(old(m.script)) ==> !r.Killed?
    ensures Steady(old(m.script)) && caller == old(m.durable) && confirmed && !Terminal(caller.phase) ==> FourLooks(entries)
    ensures !Terminal(old(m.durable.phase)) && m.durable.phase == RolledBack ==> AllNoted(m.durable)
  {
    hide Withdrawn;
    hide Within, Settled, Sane, Continues, Advances, Gentle, Steady, AllRestorable, AllSettled, Terminal;
    entries := [];
    NotTerminal(caller.phase);
    NotTerminal(m.durable.phase);
    SelfAdvances(m.script);
    WithinSelf(m.world);
    OpenSelf(m.durable);
    if m.durable != caller {
      return Failed(StaleCopy), entries;
    }
    if caller.phase == Accepted {
      return Failed(AlreadyAccepted), entries;
    }
    if caller.phase == RolledBack || !confirmed {
      return Done(caller), entries;
    }
    r, entries := Attempt(m);
  }

  /** Rollback again and again, each time by a process that can be killed anywhere, until one ends
      by itself: it succeeds exactly when every owner was restorable in the first place. */
  method RollBackUntilDone(m: Machine) returns (r: Reply<State>)
    requires Sane(m.durable) && !Terminal(m.durable.phase) && Gentle(m.script)
    modifies m`script, m`durable, m`log, m`world
    ensures !r.Killed? && Within(old(m.world), m.world)
    ensures r.Done? <==> Withdrawable(old(m.durable), old(m.world), m.plan)
    ensures r.Done? ==>
      && m.durable == r.value && r.value.phase == RolledBack && Continues(old(m.durable), r.value)
      && Withdrawn(r.value, m.world, m.plan) && AllNoted(r.value)
    ensures r.Failed? && r.error != AlreadyAccepted ==> m.durable.phase == RecoveryRequired
  {
    hide Withdrawn, Withdrawable;
    ghost var start, world := m.durable, m.world;
    hide Within, Sane, Continues, Advances, Gentle, AllRestorable, AllSettled, Orderly, Steady, Unmarked, Terminal;
    OpenSelf(start);
    NotTerminal(start.phase);
    r := Killed;
    WithinSelf(world);
    while r.Killed?
      invariant Within(world, m.world)
      invariant Sane(m.durable) && Continues(start, m.durable) && m.durable.phase != Accepted && Gentle(m.script)
      invariant AllRestorable(start, m.world, m.plan) <==> AllRestorable(start, world, m.plan)
      invariant m.durable.phase == RolledBack ==> AllSettled(m.durable, m.world, m.plan) && AllNoted(m.durable)
      invariant r.Done? ==> m.durable == r.value && r.value.phase == RolledBack
      invariant r.Failed? ==> !AllRestorable(start, m.world, m.plan)
      invariant r.Failed? && r.error != AlreadyAccepted ==> m.durable.phase == RecoveryRequired
      decreases |m.script|, r.Killed?
    {
      ghost var before, world0, script0 := m.durable, m.world, m.script;
      r := Again(m);
      WithinOn(world, world0, m.world);
      StepAdvances(script0, script0, m.script) by {
        SelfAdvances(script0);
      }
      SameOn(start, before, m.durable);
      SameAll(start, before, world0, m.plan);
      SameAll(start, before, m.world, m.plan);
    }
    SameAll(start, m.durable, m.world, m.plan);
    RestorableMeans(start, world, m.plan);
    SettledMeans(m.durable, m.world, m.plan);
  }

  /** One more attempt, by a process that has just read the durable state. */
  method Again(m: Machine) returns (r: Reply<State>)
    requires Sane(m.durable) && m.durable.phase != Accepted && Gentle(m.script)
    requires m.durable.phase == RolledBack ==> AllSettled(m.durable, m.world, m.plan) && AllNoted(m.durable)
    modifies m`script, m`durable, m`log, m`world
    ensures Within(old(m.world), m.world)
    ensures Advances(old(m.script), m.script) && Sane(m.durable) && Continues(old(m.durable), m.durable)
    ensures m.durable.phase != Accepted
    ensures m.durable.phase == RolledBack ==> AllSettled(m.durable, m.world, m.plan) && AllNoted(m.durable)
    ensures AllRestorable(old(m.durable), m.world, m.plan) <==> AllRestorable(old(m.durable), old(m.world), m.plan)
    ensures r.Done? ==> m.durable == r.value && r.value.phase == RolledBack
    ensures r.Failed? ==> !AllRestorable(old(m.durable), m.world, m.plan)
    ensures r.Failed? && r.error != AlreadyAccepted ==> m.durable.phase == RecoveryRequired
    ensures r.Killed? ==> |m.script| < |old(m.script)|
  {
    hide Within, Sane, Continues, Advances, Gentle, AllRestorable, AllSettled, Orderly, Steady, Unmarked, Terminal;
    ghost var before := m.durable;
    NotTerminal(before.phase);
    OpenSelf(before);
    SelfAdvances(m.script);
    WithinSelf(m.world);
    if m.durable.phase == RolledBack {
      return Done(m.durable);
    }
    ghost var entries;
    r, entries := RollBack(m, m.durable, true);
    if m.durable.phase == RolledBack {
      SameAll(before, m.durable, m.world, m.plan);
    }
  }

  /** Patches can be withdrawn exactly as long as there is no backup to withdraw them from. */
  lemma RestorablePatches(state: State, world: World, plan: Plan)
    ensures Restorable(PatchOwner, state, world, plan) <==>
      || (state.backup.None? && state.plan.None?)
      || (BackupPath(state, world.patches).None? && world.patches.targets == if plan.keepPatches then Patched else Original)
  {
  }

  /** The runtime can be withdrawn unless it was accepted, or its child is lost, given up, or was
      left before it had a journal. */
  lemma RestorableRuntime(state: State, world: World, plan: Plan)
    ensures Restorable(RuntimeOwner, state, world, plan) <==>
      || (state.child.None? && (state.plan.None? || Idle(world.runtime)))
      || (&& world.runtime.Child? && (state.child.None? || state.child == Some(world.runtime.id))
          && world.runtime.status in {Unfinished, ChildInstalled, Restored, ChildRolledBack})
  {
  }

  /** A Finish that patched the files is one that no rollback can undo: all owners are
      pending or settled, and yet every rollback fails. */
  method PatchedIsStuck(m: Machine, backup: nat) returns (r: Reply<State>)
    requires Sane(m.durable) && m.durable.phase == ReadyToAttempt && m.durable.plan.Some?
    requires m.durable.backup == Some(backup) && m.world.patches == Patches(Patched, Some(backup)) && !m.plan.keepPatches
    requires Gentle(m.script)
    modifies m`script, m`durable, m`log, m`world
    ensures old(StatusOf(PatchOwner, m.durable, m.world, m.plan)) == Ok(Pending)
    ensures r.Failed?
  {
    RestorablePatches(m.durable, m.world, m.plan);
    assert !Restorable(ORDER[0], m.durable, m.world, m.plan);
    r := RollBackUntilDone(m);
  }
}

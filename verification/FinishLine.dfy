/** The boundaries that Finish leaves, and how they agree with the owners at every
    moment of a Finish and of the attempts to resume it. */
module FinishLine {
  import opened Outcomes
  import opened BootstrapState
  import opened Owners

  /** The boundaries of an uninterrupted Finish. */
  function Line(plan: Plan): (line: seq<Boundary>)
    ensures |line| == 11 && AllRolledBack !in line
  {
    [PlanConfirmed, InstallingBegun, LicensedInstalled, RuntimeInstalled, RuntimeStatusVerified,
     if plan.keepPatches then PatchesVerified else PatchesApplied,
     DoctorPassed, AfterSnapshot, SnapshotsCompared, SteamOptionsVerified, Ready]
  }

  /** What Prepare left has nothing of the line in it. */
  ghost predicate Apart(plan: Plan, base: seq<Boundary>) {
    Unrepeated(base + Line(plan)) && PatchesApplied !in base && PatchesVerified !in base
  }

  ghost predicate OnLine(plan: Plan, base: seq<Boundary>, boundaries: seq<Boundary>, n: nat) {
    n <= 11 && boundaries == base + Line(plan)[..n]
  }

  ghost predicate PhaseAt(phase: Phase, n: nat) {
    match phase
    case AwaitingSteamPrefix => n == 0
    case PlannedFinish => n == 1
    case InstallingFinish => 2 <= n <= 10
    case ReadyToAttempt => n == 11
    case RecoveryRequired => n <= 11
    case _ => false
  }

  function PlannedTargets(plan: Plan): Targets {
    if plan.keepPatches then Patched else Original
  }

  /** What the owners and the recorded fields are when n boundaries of the line are passed. */
  ghost predicate Coupled(state: State, n: nat, world: World, plan: Plan) {
    && state.plan == (if n >= 1 then Some(plan.digest) else None)
    && (if n >= 4 && !plan.keepRuntime
        then world.runtime.Child? && state.child == Some(world.runtime.id)
        else state.child.None?)
    && (n >= 3 && !plan.keepLicensed ==> world.licensed == Installed)
    && (n >= 4 && !plan.keepRuntime ==> world.runtime.Child? && world.runtime.status == ChildInstalled)
    && (plan.keepRuntime || n < 3 ==> Idle(world.runtime))
    && (if n >= 6 && !plan.keepPatches
        then state.backup.Some? && world.patches == Patches(Patched, state.backup)
        else state.backup.None?)
    && (n < 5 || plan.keepPatches ==> world.patches == Patches(PlannedTargets(plan), None))
    && (world.patches.backup.Some? ==> world.patches.targets == Patched)
    && (world.patches.targets == Patched && !plan.keepPatches ==> world.patches.backup.Some?)
  }

  ghost predicate At(state: State, world: World, plan: Plan, base: seq<Boundary>, n: nat) {
    OnLine(plan, base, state.boundaries, n) && Coupled(state, n, world, plan) && PhaseAt(state.phase, n)
  }

  /** Some moment of a Finish, or of a resumed one. */
  ghost predicate Finishing(state: State, world: World, plan: Plan, base: seq<Boundary>) {
    exists n :: At(state, world, plan, base, n)
  }

  /** An accepted child is over for the coordinator, and not for the installer of the next. */
  predicate Accepts(runtime: Runtime) {
    runtime.Child? && runtime.status == ChildAccepted
  }

  /** What a Finish relies on: the tool is there, the licensed file was not withdrawn, and no
      runtime is to be replaced that was accepted. */
  ghost predicate Undisturbed(world: World, plan: Plan) {
    && ToolThere(world.tool) && world.licensed != LicensedRolledBack && world.licensed != LicensedRecovery
    && (Accepts(world.runtime) ==> plan.keepRuntime)
  }

  /** Nor were the patches left in the middle. */
  ghost predicate Healthy(world: World, plan: Plan) {
    Undisturbed(world, plan) && world.patches.targets != Mixed
  }

  /** The prefix is accepted for a state: the tool is there, and every unfinished child of
      the runtime is the one that the state names. */
  predicate PrefixValid(state: State, world: World) {
    ToolThere(world.tool) && (Idle(world.runtime) || state.child == Some(world.runtime.id))
  }

  lemma PrefixMeans(state: State, world: World)
    ensures PrefixValid(state, world) <==>
      && (match world.tool
          case NoRecord(disk) => disk == Matching
          case AdoptedTool(intact) => intact
          case CreatedTool(presence) => presence == Intact)
      && (world.runtime.Child? ==>
            world.runtime.status in {Restored, ChildRolledBack, ChildAccepted} || state.child == Some(world.runtime.id))
  {
  }

  function Max(a: nat, b: nat): nat {
    if a < b then b else a
  }

  /** The state after a boundary, which is noted once, and the fields that come with it. */
  function Noted(state: State, boundary: Boundary, child: Option<Id>, backup: Option<nat>): State {
    state.(boundaries := if boundary in state.boundaries then state.boundaries else state.boundaries + [boundary],
           child := if child.Some? then child else state.child,
           backup := if backup.Some? then backup else state.backup)
  }

  function Note(state: State, boundary: Boundary, child: Option<Id>, backup: Option<nat>, once: bool): Update {
    Update(Some(if once && boundary in state.boundaries then state.boundaries else state.boundaries + [boundary]),
           if child.Some? then Some(child) else None,
           if backup.Some? then Some(backup) else None,
           None, None)
  }

  lemma LineAt(plan: Plan, base: seq<Boundary>, n: nat, i: nat)
    requires Apart(plan, base) && n <= 11 && i < 11
    ensures Line(plan)[i] in base + Line(plan)[..n] <==> i < n
    ensures Unrepeated(base + Line(plan)[..n])
  {
    var whole, part := base + Line(plan), base + Line(plan)[..n];
    assert forall k | 0 <= k < |part| :: part[k] == whole[k];
    assert whole[|base| + i] == Line(plan)[i];
    if i < n {
      assert part[|base| + i] == Line(plan)[i];
    }
  }

  /** Of the two boundaries for patches, only the one of the plan is ever noted. */
  lemma PatchBoundary(plan: Plan, base: seq<Boundary>, n: nat)
    requires Apart(plan, base) && n <= 11
    ensures PatchesApplied in base + Line(plan)[..n] <==> !plan.keepPatches && 5 < n
    ensures PatchesVerified in base + Line(plan)[..n] <==> plan.keepPatches && 5 < n
  {
    LineAt(plan, base, n, 5);
    forall b | b in base + Line(plan)[..n] ensures b in base || b in Line(plan) {
    }
  }

  lemma NotedOnLine(plan: Plan, base: seq<Boundary>, state: State, n: nat, i: nat, child: Option<Id>, backup: Option<nat>)
    requires Apart(plan, base) && OnLine(plan, base, state.boundaries, n) && i <= n && i < 11
    ensures OnLine(plan, base, Noted(state, Line(plan)[i], child, backup).boundaries, Max(n, i + 1))
    ensures Line(plan)[i] in state.boundaries <==> i < n
    ensures Unrepeated(Noted(state, Line(plan)[i], child, backup).boundaries)
  {
    LineAt(plan, base, n, i);
    if i == n {
      LineAt(plan, base, n + 1, i);
      assert Line(plan)[..n + 1] == Line(plan)[..n] + [Line(plan)[n]];
    }
  }

  /** The transition that notes a boundary is one that the store accepts. */
  lemma NoteAccepted(state: State, boundary: Boundary, child: Option<Id>, backup: Option<nat>, once: bool)
    requires state.phase == InstallingFinish && Unrepeated(Noted(state, boundary, child, backup).boundaries)
    requires (child.Some? ==> state.child.None?) && (backup.Some? ==> state.backup.None?)
    ensures var r := Transitioned(state, state, InstallingFinish, InstallingFinish, Note(state, boundary, child, backup, once));
      && (r.Ok? ==> r.value == Noted(state, boundary, child, backup))
      && (boundary !in state.boundaries ==> r.Ok?)
      && (once && (child.Some? || backup.Some?) ==> r.Ok?)
  {
    var update := Note(state, boundary, child, backup, once);
    if boundary in state.boundaries && !once {
      var more := state.boundaries + [boundary];
      var j :| 0 <= j < |state.boundaries| && state.boundaries[j] == boundary;
      assert more[j] == more[|state.boundaries|];
      assert !Unrepeated(more);
    } else {
      assert Changed(state, InstallingFinish, update) == Noted(state, boundary, child, backup);
    }
  }

  // Calls in a withdrawn phase -----------------------------------------------------------------------

  /** A transaction that is rolled back; or, strictly, one that was given up as well. */
  predicate Late(phase: Phase, strictly: bool) {
    phase == RollingBack || phase == RolledBack || (strictly && phase == RecoveryRequired)
  }

  /** No install is called late unless it was late before. */
  ghost predicate InTime(before: State, after: State, entries: seq<Entry>, strictly: bool) {
    !Late(before.phase, strictly) ==>
      && !Late(after.phase, strictly)
      && forall k | 0 <= k < |entries| && entries[k].Install? :: !Late(entries[k].phase, strictly)
  }

  lemma InTimeOn(a: State, b: State, c: State, e: seq<Entry>, f: seq<Entry>, strictly: bool)
    requires InTime(a, b, e, strictly) && InTime(b, c, f, strictly)
    ensures InTime(a, c, e + f, strictly)
  {
  }
}

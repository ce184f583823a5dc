/** Finish and its resumption as processes call them, with a copy of the durable state that
    was read before the lease, and how often a killed one has to be called again. */
module Coordinator {
  import opened Outcomes
  import opened BootstrapState
  import opened Owners
  import opened FinishLine
  import opened Finish
  import opened Preparation

  // Finish ---------------------------------------------------------------------------------------------

  lemma PlannedNext(caller: State, world: World, plan: Plan, base: seq<Boundary>)
    requires Apart(plan, base) && At(caller, world, plan, base, 0) && caller.phase == AwaitingSteamPrefix
    ensures var next := caller.(phase := PlannedFinish, boundaries := caller.boundaries + [PlanConfirmed],
                                plan := Some(plan.digest));
      At(next, world, plan, base, 1)
      && Transitioned(caller, caller, caller.phase, PlannedFinish, Confirm(caller, plan)) == Ok(next)
  {
    LineAt(plan, base, 0, 0);
    LineAt(plan, base, 1, 0);
    assert Line(plan)[..1] == Line(plan)[..0] + [Line(plan)[0]];
  }

  function Confirm(caller: State, plan: Plan): Update {
    WithBoundary(caller, PlanConfirmed).(plan := Some(Some(plan.digest)))
  }

  lemma InstallingNext(state: State, world: World, plan: Plan, base: seq<Boundary>)
    requires Apart(plan, base) && At(state, world, plan, base, 1) && state.phase == PlannedFinish
    ensures InstallingBegun !in state.boundaries
    ensures var next := state.(phase := InstallingFinish, boundaries := state.boundaries + [InstallingBegun]);
      At(next, world, plan, base, 2)
      && Transitioned(state, state, state.phase, InstallingFinish, WithBoundary(state, InstallingBegun)) == Ok(next)
  {
    LineAt(plan, base, 1, 1);
    LineAt(plan, base, 2, 1);
    assert Line(plan)[..2] == Line(plan)[..1] + [Line(plan)[1]];
  }

  /** The transition that commits the plan. */
  method PlanStep(m: Machine, state: State, ghost base: seq<Boundary>) returns (r: Reply<State>)
    requires state.phase == AwaitingSteamPrefix
    modifies m`script, m`durable
    ensures Stage(old(Now(m)), Now(m), m.plan, r, [], state, base, 0, 1)
    ensures r.Done? ==> Marked(old(m.durable), state) && r.value.phase == PlannedFinish
    ensures r.Done? ==> r.value.boundaries == state.boundaries + [PlanConfirmed]
  {
    hide At, Transitioned, Advances, InTime, Gentle, Finishing, Sane, Apart, Steady, Unmarked, Marked;
    ghost var live := In(Now(m), m.plan, state, base, 0);
    ghost var next := state.(phase := PlannedFinish, boundaries := state.boundaries + [PlanConfirmed],
                             plan := Some(m.plan.digest));
    if live {
      PlannedNext(state, m.world, m.plan, base);
    }
    TransitionPhase(state, PlannedFinish, Confirm(state, m.plan));
    r := Advance(m, state, PlannedFinish, Confirm(state, m.plan), live, base, 0, next, 1);
    MarkedSelf(m.durable);
    assert m.log == old(m.log) + [];
  }

  lemma MarkedSelf(state: State)
    ensures Marked(state, state)
  {
  }

  lemma AdvancesSteady(a: seq<Event>, b: seq<Event>)
    requires Advances(a, b)
    ensures Steady(a) ==> Steady(b)
  {
  }

  lemma BeginAccepted(state: State)
    requires state.phase == PlannedFinish && Unrepeated(state.boundaries)
    ensures Transitioned(state, state, state.phase, InstallingFinish,
              if InstallingBegun in state.boundaries then NOTHING.(boundaries := Some(state.boundaries))
              else WithBoundary(state, InstallingBegun)).Ok?
  {
  }

  lemma BeginsOnce(state: State)
    requires InstallingBegun in state.boundaries
    ensures Transitioned(state, state, state.phase, InstallingFinish, WithBoundary(state, InstallingBegun)).Err?
  {
    var more := state.boundaries + [InstallingBegun];
    var j :| 0 <= j < |state.boundaries| && state.boundaries[j] == InstallingBegun;
    assert more[j] == more[|state.boundaries|];
  }

  /** The transition that lets the installs begin. */
  method BeginStep(m: Machine, state: State, once: bool, ghost base: seq<Boundary>, ghost n: nat) returns (r: Reply<State>)
    requires state.phase == PlannedFinish
    modifies m`script, m`durable
    ensures Stage(old(Now(m)), Now(m), m.plan, r, [], state, base, n, 2)
    ensures r.Done? ==> Marked(old(m.durable), state) && r.value.phase == InstallingFinish && r.value.child == state.child
    ensures r.Done? && InstallingBegun in state.boundaries ==> once
    ensures once && Steady(old(m.script)) && old(m.durable) == state && Unrepeated(state.boundaries) ==>
      r.Done? && m.durable == r.value && Steady(m.script)
  {
    hide At, Transitioned, Advances, InTime, Gentle, Finishing, Sane, Apart, Steady, Unmarked, Marked;
    ghost var live := In(Now(m), m.plan, state, base, n);
    ghost var next := state.(phase := InstallingFinish, boundaries := state.boundaries + [InstallingBegun]);
    if live {
      PhaseThere(state, m.world, m.plan, base, n);
      InstallingNext(state, m.world, m.plan, base);
    }
    var update := if once && InstallingBegun in state.boundaries then NOTHING.(boundaries := Some(state.boundaries))
                  else WithBoundary(state, InstallingBegun);
    TransitionPhase(state, InstallingFinish, update);
    ChildStays(state, InstallingFinish, update);
    if Unrepeated(state.boundaries) {
      BeginAccepted(state);
    }
    if InstallingBegun in state.boundaries {
      BeginsOnce(state);
    }
    ghost var script := m.script;
    r := Advance(m, state, InstallingFinish, update, live, base, n, next, 2);
    AdvancesSteady(script, m.script);
    MarkedSelf(m.durable);
    assert m.log == old(m.log) + [];
  }

  lemma ChildStays(state: State, target: Phase, update: Update)
    requires update.child.None?
    ensures var r := Transitioned(state, state, state.phase, target, update); r.Ok? ==> r.value.child == state.child
  {
  }

  /** The inputs of the plan, looked at once more under the lease. */
  method RevalidateInputs(m: Machine, state: State, ghost base: seq<Boundary>)
    returns (r: Reply<State>, ghost entries: seq<Entry>)
    modifies m`script, m`durable, m`log
    ensures Stage(old(Now(m)), Now(m), m.plan, r, entries, state, base, 0, 0) && (r.Done? ==> r.value == state)
    ensures r.Done? ==> Revalidated(m.world, m.plan) && entries == [Checked(Inputs)]
    ensures Marked(old(m.durable), m.durable) && OnlyChecks(entries)
    ensures Steady(old(m.script)) ==> entries == [Checked(Inputs)]
    ensures Steady(old(m.script)) && !Revalidated(m.world, m.plan) ==> r == Failed(UnexpectedChanges)
  {
    hide Stage, Gentle, OnLine, Line;
    ghost var a := Now(m);
    r, entries := Verify(m, state, Inputs, base, 0);
    if r.Done? && !Revalidated(m.world, m.plan) {
      r := Failed(UnexpectedChanges);
      StageFails(a, Now(m), m.plan, r, entries, state, base, 0, 0);
    }
  }

  /** The owners are as the plan found them. */
  predicate Revalidated(world: World, plan: Plan) {
    ToolThere(world.tool) && Idle(world.runtime) && world.patches.targets == PlannedTargets(plan)
  }

  /** Finish, under the lease, for a caller whose plan was confirmed. */
  method FinishUnderLease(m: Machine, caller: State, ghost base: seq<Boundary>)
    returns (r: Reply<State>, ghost entries: seq<Entry>)
    requires caller.phase == AwaitingSteamPrefix
    modifies m`script, m`durable, m`log, m`world, m`nextId
    ensures Ends(old(Now(m)), Now(m), m.plan, r, entries, caller, base, 0) && (r.Done? ==> AllChecked(entries))
    ensures r.Done? ==> Shape(entries) == [Checked(Inputs)] + FinishShape(m.plan) && InstallingBegun !in caller.boundaries
    ensures !OnlyChecks(entries) ==> old(m.durable) == caller
    ensures Steady(old(m.script)) ==> |entries| > 0 && entries[0] == Checked(Inputs)
  {
    hide Stage, In, Smooth, Ends, Shape, FinishShape, AllChecked;
    ghost var a, looks, more := Now(m), [], [];
    r, looks := RevalidateInputs(m, caller, base);
    entries := looks;
    if !r.Done? {
      EndsEarly(a, Now(m), m.plan, r, looks, caller, base, 0, 0);
      return;
    }
    assert looks + [] == looks;
    ghost var b := Now(m);
    r := PlanStep(m, caller, base);
    StageOn(a, b, Now(m), m.plan, caller, caller, r, looks, [], base, 0, 0, 1);
    if !r.Done? {
      EndsEarly(a, Now(m), m.plan, r, looks, caller, base, 0, 1);
      return;
    }
    var planned := r.value;
    ghost var c := Now(m);
    r := BeginStep(m, planned, false, base, 1);
    StageOn(a, c, Now(m), m.plan, caller, planned, r, looks, [], base, 0, 1, 2);
    if !r.Done? {
      EndsEarly(a, Now(m), m.plan, r, looks, caller, base, 0, 2);
      return;
    }
    var begun := r.value;
    ghost var d := Now(m);
    r, more := InstallLine(m, begun, base);
    EndsOn(a, d, Now(m), m.plan, caller, begun, r, looks, more, base, 0, 2);
    ShapeJoins(looks, more);
    ShapeOfCheck(Inputs);
    CheckedLast(looks, more);
    entries := looks + more;
  }

  /** A resumption that ends before it calls an owner, and leaves the owners alone. */
  ghost predicate TurnedAway(a: Moment, b: Moment, r: Reply<State>, entries: seq<Entry>) {
    && OnlyChecks(entries) && !r.Done? && Ran(a, b, entries) && Marked(a.durable, b.durable) && b.world == a.world
    && (Unmarked(a.script) ==> b.durable == a.durable) && (r.Killed? ==> |b.script| < |a.script|)
  }

  lemma TurnedAwayStays(a: Moment, b: Moment, plan: Plan, r: Reply<State>, entries: seq<Entry>,
                        state: State, base: seq<Boundary>, n: nat)
    requires In(a, plan, state, base, n)
    ensures Apart(plan, base)
    ensures TurnedAway(a, b, r, entries) ==> Finishing(b.durable, b.world, plan, base)
  {
    if TurnedAway(a, b, r, entries) {
      MarkedOn(state, a.durable, b.durable);
      MarkedAt(state, b.durable, b.world, plan, base, n);
    }
  }

  lemma EndsVacuous(a: Moment, b: Moment, plan: Plan, r: Reply<State>, e: seq<Entry>, state: State,
                    base: seq<Boundary>, k: nat, n: nat)
    requires Ends(a, b, plan, r, e, state, base, k) && !In(a, plan, state, base, n)
    ensures Ends(a, b, plan, r, e, state, base, n)
  {
  }

  lemma MarkedBack(a: State, b: State, c: State)
    requires Marked(a, b) && c.phase != RecoveryRequired
    ensures Marked(b, c) ==> a == c
  {
  }

  lemma ChildlessBefore(a: Moment, plan: Plan, state: State, base: seq<Boundary>, n: nat)
    requires In(a, plan, state, base, n) && n < 4
    ensures state.child.None?
  {
  }

  /** Resume a Finish, under the lease, with the copy that was read before it.  In the
      middle of the installs the copy is not compared again before the first of them: the
      prefix, which is looked at first, decides whether they are called. */
  method ResumeUnderLease(m: Machine, caller: State, ghost base: seq<Boundary>, ghost n: nat)
    returns (r: Reply<State>, ghost entries: seq<Entry>)
    requires caller.phase == PlannedFinish || caller.phase == InstallingFinish
    requires caller.phase == InstallingFinish ==> 2 <= n && (caller.child.Some? ==> 4 <= n)
    modifies m`script, m`durable, m`log, m`world, m`nextId
    ensures old(PrefixValid(caller, m.world)) ==> Ends(old(Now(m)), Now(m), m.plan, r, entries, caller, base, n)
    ensures !old(PrefixValid(caller, m.world)) ==> TurnedAway(old(Now(m)), Now(m), r, entries)
    ensures r.Done? ==> AllChecked(entries) && ResumedAfter(m.plan, entries)
    ensures caller.phase == PlannedFinish && !OnlyChecks(entries) ==> old(m.durable) == caller
    ensures Steady(old(m.script)) ==> |entries| > 0 && entries[0] == Checked(Prefix)
    ensures caller.phase == InstallingFinish && Steady(old(m.script)) && old(PrefixValid(caller, m.world)) ==>
      |entries| > 2 && entries[2] == Install(ThreadingOwner, old(m.durable.phase))
    ensures caller.phase == PlannedFinish && Steady(old(m.script)) && old(PrefixValid(caller, m.world) && m.durable == caller)
            && Unrepeated(caller.boundaries) ==>
      |entries| > 2 && entries[2] == Install(ThreadingOwner, InstallingFinish)
  {
    hide Stage, In, Smooth, Ends, Ran, Marked, Steady, AllChecked, Resumed;
    ghost var a, looks, more := Now(m), [], [];
    r, looks := CheckPrefix(m, caller, base, n);
    entries := looks;
    if !r.Done? {
      if PrefixValid(caller, a.world) {
        EndsEarly(a, Now(m), m.plan, r, looks, caller, base, n, n);
      }
      return;
    }
    assert looks + [] == looks;
    ghost var b := Now(m);
    if caller.phase == PlannedFinish {
      r := BeginStep(m, caller, true, base, n);
      MarkedBack(a.durable, b.durable, caller);
      StageOn(a, b, Now(m), m.plan, caller, caller, r, looks, [], base, n, n, 2);
      if !r.Done? {
        EndsEarly(a, Now(m), m.plan, r, looks, caller, base, n, 2);
        return;
      }
      var begun := r.value;
      ghost var c := Now(m);
      ghost var k := if begun.child.Some? then 4 else 2;
      r, more := ResumeLine(m, begun, base, k);
      if k == 4 {
        if In(c, m.plan, begun, base, 2) {
          ChildlessBefore(c, m.plan, begun, base, 2);
        }
        EndsVacuous(c, Now(m), m.plan, r, more, begun, base, 4, 2);
      }
      EndsOn(a, c, Now(m), m.plan, caller, begun, r, looks, more, base, n, 2);
    } else {
      r, more := ResumeLine(m, caller, base, n);
      EndsOn(a, b, Now(m), m.plan, caller, caller, r, looks, more, base, n, n);
    }
    CheckedLast(looks, more);
    ResumedBehind(m.plan, looks, more);
    entries := looks + more;
  }

  /** The prefix was looked at, and then the line was gone through. */
  ghost predicate ResumedAfter(plan: Plan, entries: seq<Entry>) {
    |entries| > 0 && entries[0] == Checked(Prefix) && Resumed(plan, entries[1..])
  }

  lemma ResumedBehind(plan: Plan, looks: seq<Entry>, more: seq<Entry>)
    requires looks == [Checked(Prefix)]
    ensures Resumed(plan, more) ==> ResumedAfter(plan, looks + more)
  {
    hide Resumed;
    assert (looks + more)[1..] == more;
  }

  /** The first look of a resumption. */
  method CheckPrefix(m: Machine, caller: State, ghost base: seq<Boundary>, ghost n: nat)
    returns (r: Reply<State>, ghost entries: seq<Entry>)
    modifies m`script, m`durable, m`log
    ensures PrefixValid(caller, m.world) ==> Stage(old(Now(m)), Now(m), m.plan, r, entries, caller, base, n, n)
    ensures !PrefixValid(caller, m.world) ==> TurnedAway(old(Now(m)), Now(m), r, entries)
    ensures OnlyChecks(entries) && (r.Done? ==> r.value == caller && entries == [Checked(Prefix)])
    ensures Marked(old(m.durable), m.durable) && (Unmarked(old(m.script)) ==> m.durable == old(m.durable))
    ensures Steady(old(m.script)) ==> m.durable == old(m.durable) && Steady(m.script) && entries == [Checked(Prefix)]
    ensures Steady(old(m.script)) && PrefixValid(caller, m.world) ==> r.Done?
    ensures Steady(old(m.script)) && !PrefixValid(caller, m.world) ==> r == Failed(UnexpectedChanges)
  {
    hide In, Smooth, PrefixValid, InTime, Finishing, Gentle, Steady;
    r, entries := Verify(m, caller, Prefix, base, n);
    if r.Done? && !PrefixValid(caller, m.world) {
      r := Failed(UnexpectedChanges);
    }
  }

  // Attempts ------------------------------------------------------------------------------------------

  /** Resume, with the copy that a process read some time ago: what fails is given up. */
  method Resume(m: Machine, caller: State, ghost base: seq<Boundary>, ghost n: nat)
    returns (r: Reply<State>, ghost entries: seq<Entry>)
    requires caller.phase == PlannedFinish || caller.phase == InstallingFinish
    requires caller.phase == InstallingFinish ==> 2 <= n && (caller.child.Some? ==> 4 <= n)
    modifies m`script, m`durable, m`log, m`world, m`nextId
    ensures Advances(old(m.script), m.script) && m.log == old(m.log) + entries
    ensures NoneBegan(entries) && Onward(old(m.durable), m.durable)
    ensures InTime(old(m.durable), m.durable, entries, false)
    ensures old(m.world.patches.targets) == Mixed ==> m.world.patches.targets == Mixed
    ensures old(Accepts(m.world.runtime)) ==> m.world.runtime == old(m.world.runtime)
    ensures r.Killed? ==> |m.script| < |old(m.script)|
    ensures r.Done? ==> AllChecked(entries) && ResumedAfter(m.plan, entries)
    ensures old(In(Now(m), m.plan, caller, base, n)) ==>
      && Finishing(m.durable, m.world, m.plan, base) && (r.Done? ==> AtEnd(Now(m), m.plan, r.value, base))
      && (Gentle(old(m.script)) && r.Failed? ==> m.durable.phase == RecoveryRequired)
    ensures old(In(Now(m), m.plan, caller, base, n) && Smooth(Now(m), m.plan, caller) && PrefixValid(caller, m.world)) ==>
      !r.Failed? && Undisturbed(m.world, m.plan) && InTime(old(m.durable), m.durable, entries, true)
    ensures !old(PrefixValid(caller, m.world)) ==>
      OnlyChecks(entries) && !r.Done? && m.world == old(m.world) && Marked(old(m.durable), m.durable)
    ensures Unmarked(old(m.script)) && !Late(old(m.durable.phase), true) ==> !LateInstall(entries, true)
    ensures caller.phase == PlannedFinish && !OnlyChecks(entries) ==> old(m.durable) == caller
    ensures Steady(old(m.script)) ==> |entries| > 0 && entries[0] == Checked(Prefix)
    ensures caller.phase == InstallingFinish && Steady(old(m.script)) && old(PrefixValid(caller, m.world)) ==>
      |entries| > 2 && entries[2] == Install(ThreadingOwner, old(m.durable.phase))
  {
    hide In, Advances, Onward, NoneBegan, Gentle, Undisturbed, Finishing, AtEnd, InTime, Unmarked, PrefixValid, Marked;
    GentleUnmarked(m.script);
    r, entries := ResumeUnderLease(m, caller, base, n);
    if Unmarked(old(m.script)) {
      InTimeInstalls(old(m.durable), m.durable, entries, true);
    }
    if old(In(Now(m), m.plan, caller, base, n)) {
      TurnedAwayStays(old(Now(m)), Now(m), m.plan, r, entries, caller, base, n);
    }
    if r.Failed? {
      ghost var a, script := m.durable, m.script;
      var killed := RequireRecovery(m);
      AdvancesOn(old(m.script), script, m.script);
      AdvancesGentle(old(m.script), script);
      MarkedInTime(a, m.durable);
      OnwardOn(old(m.durable), a, m.durable);
      if !old(PrefixValid(caller, m.world)) {
        MarkedOn(old(m.durable), a, m.durable);
      }
      InTimeOn(old(m.durable), a, m.durable, entries, [], false);
      assert entries + [] == entries;
      if old(In(Now(m), m.plan, caller, base, n)) {
        FinishingMarked(a, m.durable, m.world, m.plan, base);
        FinishingOpen(a, m.world, m.plan, base);
      }
      Shorter(old(m.script), script);
      r := if killed then Killed else r;
    }
  }

  lemma FinishingOpen(state: State, world: World, plan: Plan, base: seq<Boundary>)
    requires Finishing(state, world, plan, base) && Apart(plan, base)
    ensures !Terminal(state.phase) && Unrepeated(state.boundaries)
  {
    var n :| At(state, world, plan, base, n);
    LineAt(plan, base, n, 0);
  }

  /** An install was called for a transaction that is rolled back; or, strictly, given up. */
  ghost predicate LateInstall(entries: seq<Entry>, strictly: bool) {
    exists k :: 0 <= k < |entries| && entries[k].Install? && Late(entries[k].phase, strictly)
  }

  lemma InTimeInstalls(a: State, b: State, entries: seq<Entry>, strictly: bool)
    requires InTime(a, b, entries, strictly)
    ensures !Late(a.phase, strictly) ==> !LateInstall(entries, strictly)
  {
  }

  lemma Shorter(a: seq<Event>, b: seq<Event>)
    requires Advances(a, b)
    ensures |b| <= |a|
  {
  }

  lemma FinishingMarked(a: State, b: State, world: World, plan: Plan, base: seq<Boundary>)
    requires Finishing(a, world, plan, base) && Marked(a, b)
    ensures Finishing(b, world, plan, base)
  {
    var n :| At(a, world, plan, base, n);
    MarkedAt(a, b, world, plan, base, n);
  }

  /** What no resumption can go on from: patches in the middle, or a child of the runtime
      that its installer left before the state named it. */
  predicate Stuck(state: State, world: World) {
    world.patches.targets == Mixed || (state.child.None? && !Idle(world.runtime))
  }

  /** A Finish from any moment on that is killed any number of times, anywhere, in the middle of
      an install as well, and resumed each time.  It ends with every boundary of the
      uninterrupted one, in the same order, each of them once, unless a death left it stuck;
      then it ends before the boundary of the owner that was left, and is given up. */
  method FinishUntilReady(m: Machine, base: seq<Boundary>) returns (r: Reply<State>)
    requires Underway(m, base)
    modifies m`script, m`durable, m`log, m`world, m`nextId
    ensures !r.Killed? && (r.Done? <==> !Stuck(m.durable, m.world))
    ensures old(Stuck(m.durable, m.world)) ==> r.Failed?
    ensures r.Done? ==>
      && m.durable == r.value && r.value.phase == ReadyToAttempt
      && r.value.boundaries == base + Line(m.plan) && At(r.value, m.world, m.plan, base, 11)
    ensures r.Failed? ==>
      && m.durable.phase == RecoveryRequired
      && m.durable.boundaries == base + Line(m.plan)[..if m.world.patches.targets == Mixed then 5 else 3]
  {
    hide Gentle, Undisturbed, Coupled, Apart, Line, OnLine, Advances, Finishing, At, AtEnd, Stuck;
    r := Killed;
    while r.Killed?
      invariant r.Done? ==> AtEnd(Now(m), m.plan, r.value, base) && !Stuck(m.durable, m.world)
      invariant !r.Done? ==> Underway(m, base)
      invariant r.Failed? ==> Stuck(m.durable, m.world) && m.durable.phase == RecoveryRequired
      invariant old(Stuck(m.durable, m.world)) ==> Stuck(m.durable, m.world)
      decreases |m.script|, r.Killed?
    {
      r := GoOn(m, base);
      if r.Done? {
        EndOfLine(r.value, m, base);
        NotStuck(r.value, m.world, m.plan, base, 11);
      }
    }
    if r.Done? {
      EndOfLine(r.value, m, base);
    } else {
      StuckBefore(m.durable, m.world, m.plan, base);
    }
  }

  /** The start of a Finish is one of its moments, and not a stuck one. */
  lemma StartUnderway(m: Machine, base: seq<Boundary>)
    requires Apart(m.plan, base) && m.durable.phase == AwaitingSteamPrefix && At(m.durable, m.world, m.plan, base, 0)
    requires Gentle(m.script) && Undisturbed(m.world, m.plan)
    ensures Underway(m, base) && !Stuck(m.durable, m.world)
  {
    hide Undisturbed, Gentle, Apart;
    NowFinishing(m.durable, m.world, m.plan, base, 0);
  }

  /** Prepare and Finish, from the confirmed plan to the end, killed anywhere and resumed each time. */
  method SetUpUntilReady(m: Machine, base: seq<Boundary>) returns (prepared: Reply<State>, r: Reply<State>)
    requires m.durable.phase == Preparing && Preparable(m.durable, m.world, m.plan) && Gentle(m.script)
    requires base == AfterPrepare(m.durable, m.world.tool).boundaries && Apart(m.plan, base)
    requires m.durable.plan.None? && m.durable.child.None? && m.durable.backup.None?
    requires Idle(m.world.runtime) && m.world.patches == Patches(PlannedTargets(m.plan), None)
    requires m.world.licensed != LicensedRolledBack && m.world.licensed != LicensedRecovery
    requires Accepts(m.world.runtime) ==> m.plan.keepRuntime
    modifies m`script, m`durable, m`log, m`world, m`nextId
    ensures !prepared.Killed? && !r.Killed?
    ensures prepared.Failed? ==> r == prepared && HalfPublished(m.world, m.plan) && m.durable.phase == RecoveryRequired
    ensures prepared.Done? ==> (r.Done? <==> !Stuck(m.durable, m.world))
    ensures r.Done? ==> m.durable == r.value && r.value.phase == ReadyToAttempt && r.value.boundaries == base + Line(m.plan)
    ensures r.Failed? ==> m.durable.phase == RecoveryRequired
  {
    hide Apart, Line, Gentle, Preparable, HalfPublished, ToolThere, Recorded, Stuck;
    prepared := PrepareUntilAwaiting(m);
    if !prepared.Done? {
      return prepared, prepared;
    }
    assert base + Line(m.plan)[..0] == base;
    StartUnderway(m, base);
    r := FinishUntilReady(m, base);
  }

  /** A runtime that was accepted is never replaced: the installer refuses, in a Finish and in
      every resumption of it, whatever happens. */
  method AcceptedIsNotReplaced(m: Machine, base: seq<Boundary>, tries: nat) returns (r: Reply<State>)
    requires Apart(m.plan, base) && m.durable.phase == AwaitingSteamPrefix && At(m.durable, m.world, m.plan, base, 0)
    requires Accepts(m.world.runtime) && !m.plan.keepRuntime
    modifies m`script, m`durable, m`log, m`world, m`nextId
    ensures !r.Done? && m.world.runtime == old(m.world.runtime) && Finishing(m.durable, m.world, m.plan, base)
  {
    hide Apart, At, Finishing, Accepts, Advances, Onward, InTime;
    MarkedSelf(m.durable);
    ghost var entries;
    r, entries := FinishUnderLease(m, m.durable, base);
    NeverAtEnd(Now(m), m.plan, r, base);
    for i := 0 to tries
      invariant !r.Done? && m.world.runtime == old(m.world.runtime) && Finishing(m.durable, m.world, m.plan, base)
    {
      var caller := m.durable;
      if caller.phase == PlannedFinish || caller.phase == InstallingFinish {
        ghost var n := UnderwayAt(caller, m.world, m.plan, base);
        MarkedSelf(caller);
        r, entries := Resume(m, caller, base, n);
        NeverAtEnd(Now(m), m.plan, r, base);
      }
    }
  }

  lemma NeverAtEnd(b: Moment, plan: Plan, r: Reply<State>, base: seq<Boundary>)
    requires r.Done? ==> AtEnd(b, plan, r.value, base)
    requires Accepts(b.world.runtime) && !plan.keepRuntime
    ensures !r.Done?
  {
  }

  /** A death between the return of the runtime's installer and the boundary after it is one
      that leaves a Finish stuck, although nothing failed. */
  method LeftChildIsStuck(m: Machine, base: seq<Boundary>) returns (call: Reply<State>, r: Reply<State>)
    requires Apart(m.plan, base) && At(m.durable, m.world, m.plan, base, 3) && m.durable.phase == InstallingFinish
    requires Gentle(m.script) && Healthy(m.world, m.plan) && Idle(m.world.runtime) && !m.plan.keepRuntime
    modifies m`script, m`durable, m`log, m`world, m`nextId
    ensures !call.Failed? && !r.Killed?
    ensures call.Done? ==> r.Failed? && m.durable.phase == RecoveryRequired
  {
    hide Gentle, Undisturbed, Apart, OnLine, Line, Finishing, Marked, Advances, Sane;
    var state := m.durable;
    ghost var script := m.script;
    MarkedSelf(state);
    GentleUnmarked(script);
    ghost var entries, child;
    call, child, entries := CallRuntime(m, state, base, 3);
    r := FinishUntilReady(m, base);
  }

  lemma NotStuck(state: State, world: World, plan: Plan, base: seq<Boundary>, n: nat)
    requires At(state, world, plan, base, n) && n != 3 && n != 5
    ensures !Stuck(state, world)
  {
  }

  lemma StuckBefore(state: State, world: World, plan: Plan, base: seq<Boundary>)
    requires Finishing(state, world, plan, base) && Stuck(state, world)
    ensures state.boundaries == base + Line(plan)[..if world.patches.targets == Mixed then 5 else 3]
  {
    hide Line;
    var n :| At(state, world, plan, base, n);
  }

  /** A Finish that can go on; or that is stuck, and may have been given up. */
  ghost predicate Underway(m: Machine, base: seq<Boundary>)
    reads m
  {
    && Apart(m.plan, base) && Gentle(m.script) && Finishing(m.durable, m.world, m.plan, base)
    && (Stuck(m.durable, m.world) || (Undisturbed(m.world, m.plan) && m.durable.phase != RecoveryRequired))
  }

  lemma EndOfLine(state: State, m: Machine, base: seq<Boundary>)
    requires AtEnd(Now(m), m.plan, state, base)
    ensures state == m.durable && state.phase == ReadyToAttempt && At(state, m.world, m.plan, base, 11)
    ensures state.boundaries == base + Line(m.plan)
  {
    assert Line(m.plan)[..11] == Line(m.plan);
  }

  lemma UnderwayAt(state: State, world: World, plan: Plan, base: seq<Boundary>) returns (n: nat)
    requires Finishing(state, world, plan, base) && state.phase != RecoveryRequired
    ensures At(state, world, plan, base, n)
    ensures state.phase in {AwaitingSteamPrefix, PlannedFinish, InstallingFinish, ReadyToAttempt}
    ensures state.phase == ReadyToAttempt <==> n == 11
    ensures state.phase == AwaitingSteamPrefix <==> n == 0
    ensures state.phase == InstallingFinish <==> 2 <= n <= 10
    ensures state.child.Some? ==> 4 <= n
    ensures Undisturbed(world, plan) && !Stuck(state, world) ==> Healthy(world, plan) && PrefixValid(state, world)
  {
    n :| At(state, world, plan, base, n);
  }

  /** What the user does after a kill: start again before the plan was committed, and
      resume what was begun. */
  method GoOn(m: Machine, ghost base: seq<Boundary>) returns (r: Reply<State>)
    requires Underway(m, base)
    modifies m`script, m`durable, m`log, m`world, m`nextId
    ensures r.Done? ==> AtEnd(Now(m), m.plan, r.value, base)
    ensures !r.Done? ==> Underway(m, base)
    ensures r.Killed? ==> |m.script| < |old(m.script)|
    ensures r.Failed? ==> Stuck(m.durable, m.world) && m.durable.phase == RecoveryRequired
    ensures |m.script| <= |old(m.script)|
    ensures old(Stuck(m.durable, m.world)) ==> Stuck(m.durable, m.world)
    ensures old(m.durable.phase) == RecoveryRequired ==>
      r == Failed(WrongPhase) && m.durable == old(m.durable) && m.world == old(m.world)
  {
    hide Gentle, Healthy, Undisturbed, Apart, Advances, Finishing, At, Unmarked, Sane, Stuck, PrefixValid;
    var caller := m.durable;
    if caller.phase == RecoveryRequired {
      return Failed(WrongPhase);
    }
    ghost var n := UnderwayAt(caller, m.world, m.plan, base);
    MarkedSelf(caller);
    GentleUnmarked(m.script);
    ghost var script := m.script;
    ghost var entries;
    SelfAdvances(script);
    if caller.phase == ReadyToAttempt {
      r := Done(caller);
    } else if caller.phase == AwaitingSteamPrefix {
      NotStuck(caller, m.world, m.plan, base, 0);
      r, entries := FinishUnderLease(m, caller, base);
    } else {
      r, entries := Resume(m, caller, base, n);
    }
    AdvancesGentle(script, m.script);
    Shorter(script, m.script);
    if old(Stuck(m.durable, m.world)) {
      StuckStays(caller, m.durable, old(m.world), m.world);
    }
  }

  lemma StuckStays(a: State, b: State, before: World, after: World)
    requires Stuck(a, before) && (before.patches.targets == Mixed ==> after.patches.targets == Mixed)
    requires !PrefixValid(a, before) ==> after == before && Marked(a, b)
    ensures Stuck(b, after)
  {
  }
}

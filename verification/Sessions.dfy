/** Processes that finish, resume and roll back one transaction, each with a copy of its
    durable state that it read before it had the lease. */
module Sessions {
  import opened Outcomes
  import opened BootstrapState
  import opened Owners
  import opened FinishLine
  import opened Finish
  import opened Preparation
  import opened Coordinator
  import opened Rollback

  /** A resumption that was overtaken: the transaction was withdrawn meanwhile, and nothing
      that is looked at before the first install is in its way.  In the middle of the installs
      that is the prefix, and in the middle of Prepare it is the tool. */
  predicate Overtaken(session: Session, durable: State, world: World, plan: Plan, strictly: bool) {
    && session.RunResume? && Late(durable.phase, strictly)
    && (|| (session.copy.phase == InstallingFinish && PrefixValid(session.copy, world))
        || (session.copy.phase == Preparing && Publishable(session.copy, world, plan)))
  }

  /** What one session does, between two moments: the log begins with what it found, its steps
      are legal, and it calls an install late only when it was overtaken, and then it does. */
  ghost predicate SessionStep(a: Moment, b: Moment, session: Session, plan: Plan, strictly: bool) {
    && Advances(a.script, b.script) && Onward(a.durable, b.durable)
    && |a.log| < |b.log| && a.log <= b.log && b.log[|a.log|] == Began(session, a.durable, a.world)
    && NoneBegan(Own(a, b))
    && (Steady(a.script) ==> Starts(session, a.durable, Own(a, b)))
    && (a.script == [] && Sane(a.durable) ==> Concludes(session, a.durable, b.durable))
    && (Fails(a.script) && Sane(a.durable) ==> HandsOver(session, a.durable, b.durable))
    && (LateInstall(Own(a, b), strictly) ==> Overtaken(session, a.durable, a.world, plan, strictly))
    && (Steady(a.script) && Overtaken(session, a.durable, a.world, plan, strictly) ==> LateInstall(Own(a, b), strictly))
  }

  /** What a session does first, if its copy lets it do anything. */
  ghost predicate Starts(session: Session, durable: State, entries: seq<Entry>) {
    match session
    case RunFinish(copy) =>
      copy.phase == AwaitingSteamPrefix ==> |entries| > 0 && entries[0] == Checked(Inputs)
    case RunResume(copy) =>
      && (copy.phase in {PlannedFinish, InstallingFinish} ==> |entries| > 0 && entries[0] == Checked(Prefix))
      && (copy.phase == Preparing ==> |entries| > 0 && entries[0] == Checked(PreparePlan))
    case RunRollback(copy, confirmed) =>
      if copy == durable && confirmed && copy.phase !in {Accepted, RolledBack} then
        |entries| >= 4 && forall i | 0 <= i < 4 :: entries[i].Look? && entries[i].looked == ORDER[i]
      else entries == []
  }

  /** How a resumption leaves the durable state, by the phase of its copy, if nothing fails: what
      cannot go on forward is given up, what waits or has ended stays. */
  ghost predicate Concludes(session: Session, before: State, after: State) {
    session.RunResume? ==>
      match session.copy.phase
      case New | RollingBack | RecoveryRequired => after == GivenUp(before)
      case Preparing => after.phase in {AwaitingSteamPrefix, RecoveryRequired} || Terminal(after.phase)
      case AwaitingSteamPrefix | ReadyToAttempt | Accepted | RolledBack => after == before
      case PlannedFinish | InstallingFinish => true
  }

  /** The first step fails, and nothing else. */
  ghost predicate Fails(script: seq<Event>) {
    |script| == 1 && script[0].Fail?
  }

  /** What waits is given up if it cannot be handed over to Finish. */
  ghost predicate HandsOver(session: Session, before: State, after: State) {
    session.RunResume? && session.copy == before && before.phase == AwaitingSteamPrefix ==>
      after == before.(phase := RecoveryRequired)
  }

  /** What a session leaves in the log after its beginning. */
  ghost function Own(a: Moment, b: Moment): seq<Entry>
    requires |a.log| < |b.log|
  {
    b.log[|a.log| + 1..]
  }

  /** One session.  Strictly, no process may give up on the transaction without the lease. */
  method RunOne(m: Machine, session: Session, ghost strictly: bool)
    requires Sane(m.durable) && (strictly ==> Unmarked(m.script))
    modifies m
    ensures Sane(m.durable) && SessionStep(old(Now(m)), Now(m), session, m.plan, strictly)
  {
    hide Advances, Onward, Sane, Steady, Orderly, Unmarked, PrefixValid, Publishable, Late, LateInstall, NoneBegan;
    ghost var a := Now(m);
    m.log := m.log + [Began(session, m.durable, m.world)];
    ghost var entries;
    match session {
      case RunFinish(copy) =>
        entries := RunNew(m, copy, strictly);
      case RunResume(copy) =>
        entries := RunResumption(m, copy, strictly);
      case RunRollback(copy, confirmed) =>
        ghost var r;
        r, entries := RollBack(m, copy, confirmed);
        OrderlyInstallsNothing(entries, m.plan, strictly);
        ContinuesOnward(a.durable, m.durable);
    }
    assert Own(a, Now(m)) == entries;
    OnwardSane(a.durable, m.durable);
  }

  lemma ContinuesOnward(a: State, b: State)
    requires Continues(a, b) && Sane(b)
    ensures Onward(a, b)
  {
  }

  lemma OnwardSane(a: State, b: State)
    requires Onward(a, b)
    ensures Sane(a) ==> Sane(b)
  {
  }

  /** A Finish that was confirmed for some copy. */
  method RunNew(m: Machine, copy: State, ghost strictly: bool) returns (ghost entries: seq<Entry>)
    requires strictly ==> Unmarked(m.script)
    modifies m
    ensures Advances(old(m.script), m.script) && Onward(old(m.durable), m.durable)
    ensures m.log == old(m.log) + entries && NoneBegan(entries) && !LateInstall(entries, strictly)
    ensures Steady(old(m.script)) ==> Starts(RunFinish(copy), old(m.durable), entries)
  {
    hide Advances, Onward, Ends, InTime, Unmarked;
    ghost var a := Now(m);
    SelfAdvances(m.script);
    MarkedSelf(m.durable);
    MarkedOnward(m.durable, m.durable);
    entries := [];
    assert m.log == m.log + entries;
    if copy.phase == AwaitingSteamPrefix {
      ghost var r;
      r, entries := FinishUnderLease(m, copy, []);
      EndsRan(a, Now(m), m.plan, r, entries, copy, [], 0);
      InTimeInstalls(a.durable, m.durable, entries, strictly);
      ChecksAreNotLate(entries, strictly);
    }
  }

  /** Looking is not installing. */
  lemma ChecksAreNotLate(entries: seq<Entry>, strictly: bool)
    ensures OnlyChecks(entries) ==> !LateInstall(entries, strictly)
  {
    assert forall k | 0 <= k < |entries| :: entries[k] in entries;
  }

  /** The resumption of a process, by the phase of its copy. */
  method RunResumption(m: Machine, copy: State, ghost strictly: bool) returns (ghost entries: seq<Entry>)
    requires strictly ==> Unmarked(m.script)
    modifies m
    ensures Advances(old(m.script), m.script) && Onward(old(m.durable), m.durable)
    ensures m.log == old(m.log) + entries && NoneBegan(entries)
    ensures Steady(old(m.script)) ==> Starts(RunResume(copy), old(m.durable), entries)
    ensures old(m.script) == [] && Sane(old(m.durable)) ==> Concludes(RunResume(copy), old(m.durable), m.durable)
    ensures Fails(old(m.script)) && Sane(old(m.durable)) ==> HandsOver(RunResume(copy), old(m.durable), m.durable)
    ensures LateInstall(entries, strictly) ==> old(Overtaken(RunResume(copy), m.durable, m.world, m.plan, strictly))
    ensures Steady(old(m.script)) && old(Overtaken(RunResume(copy), m.durable, m.world, m.plan, strictly)) ==>
      LateInstall(entries, strictly)
  {
    hide Advances, Onward, Steady, InTime, Unmarked, PrefixValid, Publishable;
    ghost var a := Now(m);
    ghost var script := m.script;
    SelfAdvances(m.script);
    MarkedOnward(m.durable, m.durable);
    NothingComes(a.script, a.script);
    FailsUnmarked(a.script);
    entries := [];
    assert m.log == m.log + entries;
    var giveUp := copy.phase in {New, RollingBack, RecoveryRequired};
    if copy.phase == PlannedFinish || copy.phase == InstallingFinish {
      ghost var r;
      r, entries := Resume(m, copy, [], if copy.child.Some? then 4 else 2);
      ChecksAreNotLate(entries, strictly);
      InTimeInstalls(a.durable, m.durable, entries, false);
    } else if copy.phase == Preparing {
      var r;
      r, entries := ResumePrepare(m, copy);
      ChecksAreNotLate(entries, strictly);
      InTimeInstalls(a.durable, m.durable, entries, strictly);
      giveUp := r.Failed?;
      NothingComes(a.script, m.script);
      OnwardSane(a.durable, m.durable);
    } else if copy.phase == AwaitingSteamPrefix {
      var r := m.Check();
      ghost var b := m.durable;
      script := m.script;
      SelfAdvances(script);
      NothingComes(script, script);
      AwaitingFails(m, copy, r.Failed?);
      AdvancesOn(a.script, script, m.script);
      MarkedOn(a.durable, b, m.durable);
      MarkedOnward(a.durable, m.durable);
    }
    if giveUp {
      ghost var b := m.durable;
      script := m.script;
      var killed := RequireRecovery(m);
      AdvancesOn(a.script, script, m.script);
      MarkedOnward(b, m.durable);
      OnwardOn(a.durable, b, m.durable);
    }
  }

  lemma FailsUnmarked(script: seq<Event>)
    ensures Fails(script) ==> Unmarked(script) && Upcoming(script) == script[0]
  {
  }

  lemma NothingComes(a: seq<Event>, b: seq<Event>)
    requires Advances(a, b)
    ensures a == [] ==> b == [] && Steady(b) && Unmarked(b)
  {
  }

  /** What is handed over to Finish does not fit: the copy itself is given up. */
  method AwaitingFails(m: Machine, copy: State, failed: bool)
    requires copy.phase == AwaitingSteamPrefix
    modifies m`script, m`durable
    ensures Advances(old(m.script), m.script) && Marked(old(m.durable), m.durable)
    ensures !failed ==> m.durable == old(m.durable)
    ensures failed && Steady(old(m.script)) && old(m.durable) == copy && Sane(copy) ==>
      m.durable == copy.(phase := RecoveryRequired)
  {
    hide Transitioned, Advances;
    SelfAdvances(m.script);
    RecoveryMarks(copy);
    if failed {
      var r := m.Commit(copy, RecoveryRequired, NOTHING);
    }
  }

  lemma EndsRan(a: Moment, b: Moment, plan: Plan, r: Reply<State>, entries: seq<Entry>, state: State,
                base: seq<Boundary>, n: nat)
    requires Ends(a, b, plan, r, entries, state, base, n)
    ensures Ran(a, b, entries)
  {
  }

  lemma OrderlyInstallsNothing(entries: seq<Entry>, plan: Plan, strictly: bool)
    requires Orderly(entries, plan)
    ensures !LateInstall(entries, strictly) && NoneBegan(entries)
  {
  }

  lemma LateJoin(a: seq<Entry>, b: seq<Entry>, strictly: bool)
    ensures LateInstall(a + b, strictly) <==> LateInstall(a, strictly) || LateInstall(b, strictly)
  {
    if LateInstall(a, strictly) {
      var k :| 0 <= k < |a| && a[k].Install? && Late(a[k].phase, strictly);
      assert (a + b)[k] == a[k];
    }
    if LateInstall(b, strictly) {
      var k :| 0 <= k < |b| && b[k].Install? && Late(b[k].phase, strictly);
      assert (a + b)[|a| + k] == b[k];
    }
  }

  /** Any sessions, one after the other, each of them with a copy of any age: one moment
      before each of them, and one after the last. */
  ghost predicate Chain(moments: seq<Moment>, sessions: seq<Session>, plan: Plan, strictly: bool) {
    && |moments| == |sessions| + 1
    && forall i | 0 <= i < |sessions| :: SessionStep(moments[i], moments[i + 1], sessions[i], plan, strictly)
  }

  /** One of the sessions was overtaken, by what it found when it began. */
  ghost predicate SomeOvertaken(moments: seq<Moment>, sessions: seq<Session>, plan: Plan, strictly: bool)
    requires |sessions| <= |moments|
  {
    exists i :: 0 <= i < |sessions| && Overtaken(sessions[i], moments[i].durable, moments[i].world, plan, strictly)
  }

  /** Over a whole run, an install is called late only if some session was overtaken; and
      if one was, when no process dies and nothing fails. */
  lemma {:induction false} ChainLate(moments: seq<Moment>, sessions: seq<Session>, plan: Plan, strictly: bool)
    requires Chain(moments, sessions, plan, strictly)
    ensures var a, b := moments[0], moments[|sessions|];
      && Advances(a.script, b.script) && Onward(a.durable, b.durable) && a.log <= b.log
      && (LateInstall(b.log[|a.log|..], strictly) ==> SomeOvertaken(moments, sessions, plan, strictly))
      && (Steady(a.script) && SomeOvertaken(moments, sessions, plan, strictly) ==> LateInstall(b.log[|a.log|..], strictly))
    decreases |sessions|
  {
    hide Advances, Onward, Steady, LateInstall, Overtaken, SomeOvertaken, NoneBegan, Chain;
    ChainSteps(moments, sessions, plan, strictly);
    var a, n := moments[0], |sessions|;
    if n == 0 {
      SelfAdvances(a.script);
      MarkedSelf(a.durable);
      MarkedOnward(a.durable, a.durable);
      NoLateInstall(strictly);
      NoneOvertaken(moments, sessions, plan, strictly);
      assert a.log[|a.log|..] == [];
    } else {
      var last, b := moments[n - 1], moments[n];
      var before, rest := moments[..n], sessions[..n - 1];
      ChainLate(before, rest, plan, strictly);
      AdvancesOn(a.script, last.script, b.script);
      StillSteady(a.script, last.script);
      OnwardOn(a.durable, last.durable, b.durable);
      LogJoins(a, last, b, strictly);
      OvertakenStep(moments, sessions, plan, strictly);
    }
  }

  /** The last session, and the chain of those before it. */
  lemma ChainSteps(moments: seq<Moment>, sessions: seq<Session>, plan: Plan, strictly: bool)
    requires Chain(moments, sessions, plan, strictly)
    ensures |moments| == |sessions| + 1
    ensures var n := |sessions|; n > 0 ==>
      && Chain(moments[..n], sessions[..n - 1], plan, strictly)
      && SessionStep(moments[n - 1], moments[n], sessions[n - 1], plan, strictly)
  {
    hide SessionStep;
  }

  lemma NoneOvertaken(moments: seq<Moment>, sessions: seq<Session>, plan: Plan, strictly: bool)
    requires |sessions| == 0 <= |moments|
    ensures !SomeOvertaken(moments, sessions, plan, strictly)
  {
  }

  lemma OvertakenStep(moments: seq<Moment>, sessions: seq<Session>, plan: Plan, strictly: bool)
    requires |moments| == |sessions| + 1 && |sessions| > 0
    ensures var n := |sessions|; var last := moments[n - 1];
      SomeOvertaken(moments, sessions, plan, strictly) <==>
        || SomeOvertaken(moments[..n], sessions[..n - 1], plan, strictly)
        || Overtaken(sessions[n - 1], last.durable, last.world, plan, strictly)
  {
    hide Overtaken;
    var n := |sessions|;
    var before, rest := moments[..n], sessions[..n - 1];
    if SomeOvertaken(before, rest, plan, strictly) {
      var i :| 0 <= i < n - 1 && Overtaken(rest[i], before[i].durable, before[i].world, plan, strictly);
      assert Overtaken(sessions[i], moments[i].durable, moments[i].world, plan, strictly);
    }
    if SomeOvertaken(moments, sessions, plan, strictly) {
      var i :| 0 <= i < n && Overtaken(sessions[i], moments[i].durable, moments[i].world, plan, strictly);
      assert i < n - 1 ==> Overtaken(rest[i], before[i].durable, before[i].world, plan, strictly);
    }
  }

  /** The log alone decides what every session of a run found: there is one chain for it. */
  lemma {:induction false} ChainFixed(first: seq<Moment>, second: seq<Moment>, sessions: seq<Session>, plan: Plan, strictly: bool)
    requires Chain(first, sessions, plan, strictly) && Chain(second, sessions, plan, strictly)
    requires first[|sessions|].log == second[|sessions|].log
    ensures forall i | 0 <= i < |sessions| ::
      first[i].durable == second[i].durable && first[i].world == second[i].world && first[i].log == second[i].log
    decreases |sessions|
  {
    hide Chain, SessionStep;
    ChainSteps(first, sessions, plan, strictly);
    ChainSteps(second, sessions, plan, strictly);
    var n := |sessions|;
    if n > 0 {
      StepFixed(first[n - 1], second[n - 1], first[n], second[n], sessions[n - 1], plan, strictly);
      ChainFixed(first[..n], second[..n], sessions[..n - 1], plan, strictly);
      forall i | 0 <= i < n
        ensures first[i].durable == second[i].durable && first[i].world == second[i].world && first[i].log == second[i].log
      {
        assert first[..n][i] == first[i] && second[..n][i] == second[i];
      }
    }
  }

  lemma StepFixed(a: Moment, b: Moment, c: Moment, d: Moment, session: Session, plan: Plan, strictly: bool)
    requires SessionStep(a, c, session, plan, strictly) && SessionStep(b, d, session, plan, strictly) && c.log == d.log
    ensures a.durable == b.durable && a.world == b.world && a.log == b.log
  {
    hide Overtaken, LateInstall, Onward, Advances;
    OwnBegins(a, c, session, plan, strictly);
    OwnBegins(b, d, session, plan, strictly);
    assert |a.log| == |b.log|;
  }

  lemma OwnBegins(a: Moment, b: Moment, session: Session, plan: Plan, strictly: bool)
    requires SessionStep(a, b, session, plan, strictly)
    ensures forall k | |a.log| < k < |b.log| :: !b.log[k].Began?
  {
    hide Overtaken, LateInstall, Onward, Advances;
    forall k | |a.log| < k < |b.log| ensures !b.log[k].Began? {
      assert Own(a, b)[k - |a.log| - 1] == b.log[k];
    }
  }

  lemma LogJoins(a: Moment, b: Moment, c: Moment, strictly: bool)
    requires a.log <= b.log <= c.log && |b.log| < |c.log| && c.log[|b.log|].Began?
    ensures LateInstall(c.log[|a.log|..], strictly) <==>
      LateInstall(b.log[|a.log|..], strictly) || LateInstall(Own(b, c), strictly)
  {
    var began := [c.log[|b.log|]];
    assert c.log[|a.log|..] == b.log[|a.log|..] + (began + Own(b, c));
    LateJoin(b.log[|a.log|..], began + Own(b, c), strictly);
    LateJoin(began, Own(b, c), strictly);
  }

  /** No install is called after a rollback began if no session was overtaken; and only if,
      when all sessions run to their end.  What is durable goes on by legal steps. */
  method RunAll(m: Machine, sessions: seq<Session>, ghost strictly: bool) returns (ghost moments: seq<Moment>)
    requires Sane(m.durable) && (strictly ==> Unmarked(m.script))
    modifies m
    ensures Chain(moments, sessions, m.plan, strictly) && moments[0] == old(Now(m)) && moments[|sessions|] == Now(m)
    ensures Sane(m.durable) && Later(old(m.durable), m.durable) && old(m.log) <= m.log
    ensures LateInstall(m.log[|old(m.log)|..], strictly) ==>
      SomeOvertaken(moments, sessions, m.plan, strictly)
    ensures Steady(old(m.script)) && SomeOvertaken(moments, sessions, m.plan, strictly) ==>
      LateInstall(m.log[|old(m.log)|..], strictly)
  {
    hide SessionStep, Sane, Steady, LateInstall, Unmarked, Onward, Later, SomeOvertaken;
    moments := [Now(m)];
    for i := 0 to |sessions|
      invariant Sane(m.durable) && (strictly ==> Unmarked(m.script))
      invariant |moments| == i + 1 && moments[0] == old(Now(m)) && moments[i] == Now(m)
      invariant Chain(moments, sessions[..i], m.plan, strictly)
    {
      ghost var before := Now(m);
      RunOne(m, sessions[i], strictly);
      StepUnmarked(before, Now(m), sessions[i], m.plan, strictly);
      moments := moments + [Now(m)];
      assert sessions[..i + 1] == sessions[..i] + [sessions[i]];
    }
    assert sessions[..|sessions|] == sessions;
    ChainLate(moments, sessions, m.plan, strictly);
    OnwardLater(moments[0].durable, m.durable);
  }

  lemma StepUnmarked(a: Moment, b: Moment, session: Session, plan: Plan, strictly: bool)
    requires SessionStep(a, b, session, plan, strictly)
    ensures Unmarked(a.script) ==> Unmarked(b.script)
  {
  }

  lemma OnwardLater(a: State, b: State)
    requires Onward(a, b) && Sane(a)
    ensures Later(a, b)
  {
    hide Reaches, Later;
    ReachesLater(a, b);
  }

  lemma NoLateInstall(strictly: bool)
    ensures !LateInstall([], strictly)
  {
  }

  lemma StillSteady(a: seq<Event>, b: seq<Event>)
    requires Advances(a, b)
    ensures (Steady(a) ==> Steady(b)) && (Unmarked(a) ==> Unmarked(b))
  {
  }

  // Overtaken by a rollback ---------------------------------------------------------------------------

  /** What a rollback leaves in the way of a resumption that it overtakes. */
  predicate LeavesOpen(copy: State, tool: Tool, plan: Plan, baseline: bool) {
    if copy.phase == InstallingFinish then tool == AdoptedTool(true) || tool == NoRecord(Matching)
    else tool == NoRecord(Missing) && !plan.adopts && (baseline || ToolPublished !in copy.boundaries)
  }

  lemma SettledOpen(copy: State, durable: State, before: World, after: World, plan: Plan)
    requires Within(before, after) && Continues(copy, durable) && AllSettled(durable, after, plan)
    requires copy.phase == Preparing || (copy.phase == InstallingFinish && copy.plan.Some?)
    ensures LeavesOpen(copy, before.tool, plan, before.baseline) <==>
      if copy.phase == Preparing then Publishable(copy, after, plan) else PrefixValid(copy, after)
  {
    assert Settled(ORDER[1], durable, after, plan);
    assert Settled(ORDER[3], durable, after, plan);
  }

  /** A process reads the state, and before it has the lease a rollback runs and completes.
      Then the process resumes.  It calls an install exactly when no tool was created: in
      the middle of Prepare none is there, in the middle of Finish an adopted one is. */
  method OvertakenByRollback(m: Machine) returns (copy: State, withdrawn: State, ghost entries: seq<Entry>)
    requires Sane(m.durable) && Steady(m.script) && AllRestorable(m.durable, m.world, m.plan)
    requires m.durable.phase == Preparing || (m.durable.phase == InstallingFinish && m.durable.plan.Some?)
    modifies m
    ensures copy == old(m.durable) && withdrawn.phase == RolledBack
    ensures LateInstall(entries, false) <==> old(LeavesOpen(m.durable, m.world.tool, m.plan, m.world.baseline))
  {
    hide LateInstall, Orderly, Sane, Steady, Advances, Continues, Within, PrefixValid, Publishable, AllRestorable, AllSettled;
    copy := m.durable;
    ghost var world, script := m.world, m.script;
    GentleUnmarked(script);
    ghost var r;
    r, entries := RollBack(m, copy, true);
    withdrawn := m.durable;
    StillSteady(script, m.script);
    SettledOpen(copy, withdrawn, world, m.world, m.plan);
    ghost var before := Now(m);
    RunOne(m, RunResume(copy), false);
    entries := Own(before, Now(m));
  }

  /** Finish up to the moment before its first install. */
  method Begin(m: Machine, state: State, ghost base: seq<Boundary>) returns (copy: State)
    requires In(Now(m), m.plan, state, base, 0) && Smooth(Now(m), m.plan, state) && m.script == []
    modifies m`script, m`durable
    ensures m.durable == copy && m.script == [] && copy.phase == InstallingFinish
    ensures At(copy, m.world, m.plan, base, 2) && (Sane(state) ==> Sane(copy))
  {
    hide In, Smooth, Ran, Undisturbed, Finishing, Gentle;
    ghost var a := Now(m);
    InMeans(a, m.plan, state, base, 0);
    SmoothMeans(a, m.plan, state);
    var planned := PlanStep(m, state, base);
    ghost var b := Now(m);
    RanShorter(a, b, []);
    RanSane(a, b, []);
    InMeans(b, m.plan, planned.value, base, 1);
    SmoothAgain(b, m.plan, planned.value);
    var begun := BeginStep(m, planned.value, false, base, 1);
    RanShorter(b, Now(m), []);
    RanSane(b, Now(m), []);
    InMeans(Now(m), m.plan, begun.value, base, 2);
    copy := begun.value;
  }

  lemma RanSane(a: Moment, b: Moment, e: seq<Entry>)
    requires Ran(a, b, e)
    ensures Sane(a.durable) ==> Sane(b.durable)
  {
  }

  lemma SmoothMeans(a: Moment, plan: Plan, state: State)
    requires Smooth(a, plan, state)
    ensures a.durable == state
  {
  }

  lemma SmoothAgain(a: Moment, plan: Plan, state: State)
    requires a.durable == state && Gentle(a.script) && Healthy(a.world, plan)
    ensures Smooth(a, plan, state)
  {
  }

  lemma InMeans(a: Moment, plan: Plan, state: State, base: seq<Boundary>, n: nat)
    requires In(a, plan, state, base, n)
    ensures At(state, a.world, plan, base, n) && state.phase != RecoveryRequired
    ensures n == 0 ==> state.phase == AwaitingSteamPrefix
  {
  }

  /** One such run: a Finish of an adopted tool that dies before its first install. */
  method OvertakenFinish(id: Id, manifest: Digest, digest: Digest)
    returns (copy: State, withdrawn: State, ghost entries: seq<Entry>)
    ensures copy.phase == InstallingFinish && withdrawn.phase == RolledBack && LateInstall(entries, false)
  {
    hide LateInstall;
    var plan := Plan(digest, true, false, true, true);
    var world := World(NoJournal, NoChild, Patches(Patched, None), AdoptedTool(true), true, false);
    var state := State(id, manifest, AwaitingSteamPrefix, [], None, None, Some(Adopted), None);
    var m := new Machine(state, world, [], plan, 0);
    copy := Begin(m, state, []);
    assert forall i | 0 <= i < 4 :: Settled(ORDER[i], copy, world, plan);
    copy, withdrawn, entries := OvertakenByRollback(m);
  }

  /** Another: a Prepare that dies before its snapshot.  The tool is published for a
      transaction that is rolled back. */
  method OvertakenPrepare(id: Id, manifest: Digest, digest: Digest)
    returns (copy: State, withdrawn: State, ghost entries: seq<Entry>)
    ensures copy.phase == Preparing && withdrawn.phase == RolledBack && LateInstall(entries, false)
  {
    hide LateInstall;
    var plan := Plan(digest, false, false, false, false);
    var world := World(NoJournal, NoChild, Patches(Original, None), NoRecord(Missing), false, false);
    var state := State(id, manifest, Preparing, [ConfirmedPlan], None, None, None, None);
    var m := new Machine(state, world, [], plan, 0);
    assert forall i | 0 <= i < 4 :: Settled(ORDER[i], state, world, plan);
    copy, withdrawn, entries := OvertakenByRollback(m);
  }
}

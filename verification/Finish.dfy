/** Finish and its resumption: the installs of three owners, with a boundary noted
    after each of them, by processes that can die anywhere. */
module Finish {
  import opened Outcomes
  import opened BootstrapState
  import opened Owners
  import opened FinishLine

  /** What a machine is at one moment. */
  datatype Moment = Moment(durable: State, world: World, script: seq<Event>, log: seq<Entry>)

  ghost function Now(m: Machine): Moment
    reads m
  {
    Moment(m.durable, m.world, m.script, m.log)
  }

  /** A process under the lease has n boundaries of the line behind it. */
  ghost predicate In(now: Moment, plan: Plan, state: State, base: seq<Boundary>, n: nat) {
    && Apart(plan, base) && state.phase in {AwaitingSteamPrefix, PlannedFinish, InstallingFinish}
    && At(state, now.world, plan, base, n) && Marked(state, now.durable)
  }

  /** Nothing stands in the way of the process but its own death. */
  ghost predicate Smooth(now: Moment, plan: Plan, state: State) {
    Gentle(now.script) && now.durable == state && Healthy(now.world, plan)
  }

  /** What every part of a run keeps. */
  ghost predicate Ran(a: Moment, b: Moment, entries: seq<Entry>) {
    && Advances(a.script, b.script) && b.log == a.log + entries && NoneBegan(entries)
    && Onward(a.durable, b.durable)
    && (a.world.patches.targets == Mixed ==> b.world.patches.targets == Mixed)
    && (Accepts(a.world.runtime) ==> b.world.runtime == a.world.runtime)
    && InTime(a.durable, b.durable, entries, false)
    && (Unmarked(a.script) ==> InTime(a.durable, b.durable, entries, true))
  }

  /** All of it belongs to one session. */
  ghost predicate NoneBegan(entries: seq<Entry>) {
    forall e | e in entries :: !e.Began?
  }

  lemma RanOn(a: Moment, b: Moment, c: Moment, e: seq<Entry>, f: seq<Entry>)
    requires Ran(a, b, e) && Ran(b, c, f)
    ensures Ran(a, c, e + f)
  {
    hide Late, Steady, Gentle, Onward;
    AdvancesOn(a.script, b.script, c.script);
    OnwardOn(a.durable, b.durable, c.durable);
    InTimeOn(a.durable, b.durable, c.durable, e, f, false);
    if Unmarked(a.script) {
      InTimeOn(a.durable, b.durable, c.durable, e, f, true);
    }
  }

  /** What a stage does that leads a process from n boundaries to next. */
  ghost predicate Stage(a: Moment, b: Moment, plan: Plan, r: Reply<State>, entries: seq<Entry>,
                        state: State, base: seq<Boundary>, n: nat, next: nat)
  {
    && Ran(a, b, entries)
    && (r.Killed? ==> |b.script| < |a.script|)
    && (In(a, plan, state, base, n) ==>
          && Finishing(b.durable, b.world, plan, base)
          && (r.Done? ==> In(b, plan, r.value, base, next)))
    && (In(a, plan, state, base, n) && Smooth(a, plan, state) ==>
          && !r.Failed? && Gentle(b.script) && Undisturbed(b.world, plan) && (r.Killed? || Healthy(b.world, plan))
          && (r.Done? ==> b.durable == r.value))
  }

  lemma StageOn(a: Moment, b: Moment, c: Moment, plan: Plan, state: State, middle: State, r: Reply<State>,
                e: seq<Entry>, f: seq<Entry>, base: seq<Boundary>, n: nat, k: nat, next: nat)
    requires Stage(a, b, plan, Done(middle), e, state, base, n, k) && Stage(b, c, plan, r, f, middle, base, k, next)
    ensures Stage(a, c, plan, r, e + f, state, base, n, next)
  {
    hide Ran, In, Undisturbed, Finishing, Gentle;
    RanOn(a, b, c, e, f);
    RanShorter(a, b, e);
    RanShorter(b, c, f);
  }

  lemma RanShorter(a: Moment, b: Moment, e: seq<Entry>)
    requires Ran(a, b, e)
    ensures |b.script| <= |a.script|
  {
  }

  /** A process may only fail when something stands in its way. */
  lemma StageFails(a: Moment, b: Moment, plan: Plan, r: Reply<State>, e: seq<Entry>, state: State,
                   base: seq<Boundary>, n: nat, next: nat)
    requires Stage(a, b, plan, Done(state), e, state, base, n, n)
    requires r.Failed? && !(In(b, plan, state, base, n) && Smooth(b, plan, state))
    ensures Stage(a, b, plan, r, e, state, base, n, next)
  {
  }

  lemma StageSame(a: Moment, b: Moment, plan: Plan, e: seq<Entry>, state: State,
                  base: seq<Boundary>, n: nat, next: nat)
    requires Stage(a, b, plan, Done(state), e, state, base, n, n)
    requires In(b, plan, state, base, n) ==> n == next
    ensures Stage(a, b, plan, Done(state), e, state, base, n, next)
  {
  }

  lemma StageVacuous(a: Moment, b: Moment, plan: Plan, r: Reply<State>, e: seq<Entry>, state: State,
                     base: seq<Boundary>, k: nat, l: nat, n: nat, next: nat)
    requires Stage(a, b, plan, r, e, state, base, k, l) && !In(a, plan, state, base, n)
    ensures Stage(a, b, plan, r, e, state, base, n, next)
  {
  }

  /** A stage that ends early ends the longer one. */
  lemma StageStops(a: Moment, b: Moment, plan: Plan, r: Reply<State>, e: seq<Entry>, state: State,
                   base: seq<Boundary>, n: nat, k: nat, next: nat)
    requires Stage(a, b, plan, r, e, state, base, n, k) && !r.Done?
    ensures Stage(a, b, plan, r, e, state, base, n, next)
  {
  }

  lemma MarkedAt(state: State, durable: State, world: World, plan: Plan, base: seq<Boundary>, n: nat)
    requires Marked(state, durable) && At(state, world, plan, base, n)
    ensures At(durable, world, plan, base, n) && Finishing(durable, world, plan, base)
  {
    assert At(durable, world, plan, base, n);
  }

  lemma MarkedInTime(before: State, after: State)
    requires Marked(before, after)
    ensures InTime(before, after, [], false) && (after == before ==> InTime(before, after, [], true))
    ensures Onward(before, after)
  {
    MarkedOnward(before, after);
  }

  lemma CommittedInTime(before: State, after: State, target: Phase)
    requires after.phase == target && target in {AwaitingSteamPrefix, PlannedFinish, InstallingFinish, ReadyToAttempt}
    ensures InTime(before, after, [], false) && InTime(before, after, [], true)
  {
  }

  lemma PhaseThere(state: State, world: World, plan: Plan, base: seq<Boundary>, n: nat)
    requires At(state, world, plan, base, n) && state.phase != RecoveryRequired
    ensures n <= 11 && (state.phase == InstallingFinish <==> 2 <= n <= 10)
    ensures (state.phase == AwaitingSteamPrefix <==> n == 0) && (state.phase == PlannedFinish <==> n == 1)
  {
  }

  lemma NotedAt(state: State, world: World, plan: Plan, base: seq<Boundary>, n: nat, i: nat, boundary: Boundary,
                child: Option<Id>, backup: Option<nat>)
    requires Apart(plan, base) && state.phase == InstallingFinish && At(state, world, plan, base, n)
    requires i <= n && i < 10 && boundary == Line(plan)[i]
    requires Coupled(Noted(state, boundary, child, backup), Max(n, i + 1), world, plan)
    ensures At(Noted(state, boundary, child, backup), world, plan, base, Max(n, i + 1))
    ensures Finishing(Noted(state, boundary, child, backup), world, plan, base)
    ensures Unrepeated(Noted(state, boundary, child, backup).boundaries) && (boundary in state.boundaries <==> i < n)
    ensures Noted(state, boundary, child, backup).phase == InstallingFinish
  {
    hide Coupled, Line, OnLine;
    NotedOnLine(plan, base, state, n, i, child, backup);
    assert At(Noted(state, boundary, child, backup), world, plan, base, Max(n, i + 1));
  }

  // Steps --------------------------------------------------------------------------------------------

  /** A check, or a record written, between two boundaries. */
  method Step(m: Machine, state: State, ghost base: seq<Boundary>, ghost n: nat) returns (r: Reply<State>)
    modifies m`script, m`durable
    ensures Stage(old(Now(m)), Now(m), m.plan, r, [], state, base, n, n) && (r.Done? ==> r.value == state)
    ensures Marked(old(m.durable), m.durable) && (Unmarked(old(m.script)) ==> m.durable == old(m.durable))
    ensures Steady(old(m.script)) ==> r.Done? && m.durable == old(m.durable) && Steady(m.script)
    ensures r.Failed? ==> r.error == OwnerFailed
  {
    hide At, Apart, InTime, Finishing;
    ghost var before := m.durable;
    var checked := m.Check();
    MarkedInTime(before, m.durable);
    if old(In(Now(m), m.plan, state, base, n)) {
      MarkedOn(state, before, m.durable);
      MarkedAt(state, m.durable, m.world, m.plan, base, n);
    }
    GentleUnmarked(old(m.script));
    r := if checked.Done? then Done(state) else checked.PropagateFailure();
  }

  /** Look at the prefix: refused without the tool, or beside a child that the state does
      not name. */
  method ValidatePrefix(m: Machine, state: State, ghost base: seq<Boundary>, ghost n: nat)
    returns (r: Reply<State>, ghost entries: seq<Entry>)
    requires In(Now(m), m.plan, state, base, n) && Smooth(Now(m), m.plan, state) ==> PrefixValid(state, m.world)
    modifies m`script, m`durable, m`log
    ensures Stage(old(Now(m)), Now(m), m.plan, r, entries, state, base, n, n) && (r.Done? ==> r.value == state)
    ensures r.Done? ==> PrefixValid(state, m.world) && entries == [Checked(Prefix)]
    ensures entries == [] || entries == [Checked(Prefix)]
    ensures Steady(old(m.script)) && PrefixValid(state, m.world) ==>
      r.Done? && m.durable == old(m.durable) && Steady(m.script)
    ensures r.Failed? ==> r.error == OwnerFailed || r.error == UnexpectedChanges
    ensures Steady(old(m.script)) && !PrefixValid(state, m.world) ==> r == Failed(UnexpectedChanges)
  {
    hide In, Smooth, Ran, Undisturbed, Finishing, PrefixValid;
    r, entries := Verify(m, state, Prefix, base, n);
    if r.Done? && !PrefixValid(state, m.world) {
      r := Failed(UnexpectedChanges);
    }
  }

  /** Commit the next state of the line; what the transition makes of it is known. */
  method Advance(m: Machine, state: State, target: Phase, update: Update, ghost live: bool,
                 ghost base: seq<Boundary>, ghost n: nat, ghost next: State, ghost further: nat) returns (r: Reply<State>)
    requires target in {PlannedFinish, InstallingFinish, ReadyToAttempt}
    requires update.boundaries.Some? && (AllRolledBack in update.boundaries.value ==> AllRolledBack in state.boundaries)
    requires live ==>
      && At(state, m.world, m.plan, base, n) && Marked(state, m.durable) && At(next, m.world, m.plan, base, further)
      && Transitioned(state, state, state.phase, target, update) == Ok(next)
    modifies m`script, m`durable
    ensures Advances(old(m.script), m.script)
    ensures InTime(old(m.durable), m.durable, [], false) && Onward(old(m.durable), m.durable)
    ensures Unmarked(old(m.script)) ==> InTime(old(m.durable), m.durable, [], true)
    ensures r.Killed? ==> |m.script| < |old(m.script)|
    ensures live ==> Finishing(m.durable, m.world, m.plan, base)
    ensures live && r.Done? ==> r.value == next && m.durable == next
    ensures live && old(m.durable) == state && Gentle(old(m.script)) ==>
      && !r.Failed? && (m.durable == state || m.durable == next) && Gentle(m.script)
    ensures r.Done? ==> Marked(old(m.durable), state) && Transitioned(state, state, state.phase, target, update) == Ok(r.value)
    ensures Steady(old(m.script)) && old(m.durable) != state ==> r.Failed? && m.durable == old(m.durable)
    ensures m.durable.boundaries == old(m.durable.boundaries)
            || (old(m.durable.boundaries) == state.boundaries && update.boundaries == Some(m.durable.boundaries))
    ensures r.Done? ==> m.durable == r.value && Some(r.value.boundaries) == update.boundaries
    ensures Steady(old(m.script)) && old(m.durable) == state && Transitioned(state, state, state.phase, target, update).Ok? ==>
      r.Done?
  {
    hide At, Transitioned, Advances, Steady, Unmarked, Gentle, InTime, Finishing, Onward;
    ghost var before, script := m.durable, m.script;
    GentleUnmarked(script);
    TransitionPhase(state, target, update);
    TransitionNotes(state, target, update);
    r := m.Commit(state, target, update);
    AdvancesGentle(script, m.script);
    if Transitioned(state, state, state.phase, target, update) == Ok(m.durable) && Marked(before, state) {
      CommittedInTime(before, m.durable, target);
      CommittedOnward(before, state, target, update, m.durable);
      if live {
        NowFinishing(next, m.world, m.plan, base, further);
      }
    } else {
      MarkedInTime(before, m.durable);
      if live {
        MarkedOn(state, before, m.durable);
        MarkedAt(state, m.durable, m.world, m.plan, base, n);
      }
    }
  }

  lemma NowFinishing(state: State, world: World, plan: Plan, base: seq<Boundary>, n: nat)
    requires At(state, world, plan, base, n)
    ensures Finishing(state, world, plan, base)
  {
    assert At(state, world, plan, base, n);
  }

  lemma AdvancesGentle(before: seq<Event>, after: seq<Event>)
    ensures Advances(before, after) && Gentle(before) ==> Gentle(after)
  {
  }

  lemma TransitionPhase(state: State, target: Phase, update: Update)
    ensures var r := Transitioned(state, state, state.phase, target, update);
      r.Ok? ==>
        && r.value.phase == target && Unrepeated(r.value.boundaries) && !Terminal(state.phase)
        && (AllRolledBack in r.value.boundaries ==>
              AllRolledBack in state.boundaries || (update.boundaries.Some? && AllRolledBack in update.boundaries.value))
  {
  }

  lemma TransitionNotes(state: State, target: Phase, update: Update)
    requires update.boundaries.Some?
    ensures var r := Transitioned(state, state, state.phase, target, update);
      r.Ok? ==> r.value.boundaries == update.boundaries.value
  {
  }

  /** Note the i-th boundary of the line, with the fields that come with it. */
  method NoteStep(m: Machine, state: State, boundary: Boundary, child: Option<Id>, backup: Option<nat>, once: bool,
                  ghost base: seq<Boundary>, ghost n: nat, ghost i: nat) returns (r: Reply<State>)
    requires boundary != AllRolledBack && 2 <= i
    requires In(Now(m), m.plan, state, base, n) ==>
      && i <= n && i < 10 && boundary == Line(m.plan)[i] && (once || i == n)
      && (child.Some? ==> state.child.None?) && (backup.Some? ==> state.backup.None?)
      && Coupled(Noted(state, boundary, child, backup), Max(n, i + 1), m.world, m.plan)
    modifies m`script, m`durable
    ensures Stage(old(Now(m)), Now(m), m.plan, r, [], state, base, n, Max(n, i + 1))
    ensures r.Done? ==> r.value.child == if child.Some? then child else state.child
    ensures r.Done? ==> r.value.backup == if backup.Some? then backup else state.backup
    ensures r.Done? && boundary in state.boundaries ==> once
    ensures MayNote(old(m.durable), m.durable, boundary)
    ensures r.Done? && !once ==> boundary in m.durable.boundaries
  {
    hide At, Coupled, Line, Transitioned, Advances, Steady, Unmarked, Apart, Gentle, InTime, Finishing, Noted,
      Note, Unrepeated, Onward;
    ghost var before, script := m.durable, m.script;
    ghost var next := Noted(state, boundary, child, backup);
    GentleUnmarked(script);
    SelfAdvances(script);
    MarkedOnward(before, before);
    MarkedInTime(before, before);
    if In(Now(m), m.plan, state, base, n) {
      PhaseThere(state, m.world, m.plan, base, n);
      NotedAt(state, m.world, m.plan, base, n, i, boundary, child, backup);
      NoteAccepted(state, boundary, child, backup, once);
    }
    if once && boundary in state.boundaries && child.None? && backup.None? {
      NotedSame(state, boundary);
      if In(Now(m), m.plan, state, base, n) {
        MarkedAt(state, m.durable, m.world, m.plan, base, n);
      }
      assert m.log == old(m.log) + [];
      return Done(state);
    }
    var update := Note(state, boundary, child, backup, once);
    NoteAdds(state, boundary, child, backup, once);
    r := Advance(m, state, InstallingFinish, update, In(Now(m), m.plan, state, base, n), base, n, next, Max(n, i + 1));
    NoteChild(state, boundary, child, backup, once);
    assert Marked(next, next) && m.log == old(m.log) + [];
  }

  /** At most this boundary is noted. */
  ghost predicate MayNote(before: State, after: State, boundary: Boundary) {
    after.boundaries == before.boundaries || after.boundaries == before.boundaries + [boundary]
  }

  lemma NoteAdds(state: State, boundary: Boundary, child: Option<Id>, backup: Option<nat>, once: bool)
    requires boundary != AllRolledBack
    ensures var added := Note(state, boundary, child, backup, once).boundaries;
      && added.Some? && (AllRolledBack in added.value ==> AllRolledBack in state.boundaries)
      && (added.value == state.boundaries + [boundary] || (once && added.value == state.boundaries))
  {
  }

  lemma NoteChild(state: State, boundary: Boundary, child: Option<Id>, backup: Option<nat>, once: bool)
    ensures var r := Transitioned(state, state, state.phase, InstallingFinish, Note(state, boundary, child, backup, once));
      r.Ok? ==>
        && r.value.child == (if child.Some? then child else state.child)
        && r.value.backup == (if backup.Some? then backup else state.backup)
        && (boundary in state.boundaries ==> once)
  {
    if !once && boundary in state.boundaries {
      var more := state.boundaries + [boundary];
      var j :| 0 <= j < |state.boundaries| && state.boundaries[j] == boundary;
      assert more[j] == more[|state.boundaries|];
    }
  }

  lemma NotedSame(state: State, boundary: Boundary)
    requires boundary in state.boundaries
    ensures Noted(state, boundary, None, None) == state
  {
  }

  // Owners ----------------------------------------------------------------------------------------

  lemma ActionStage(a: Moment, b: Moment, plan: Plan, r: Reply<State>, entries: seq<Entry>,
                    state: State, base: seq<Boundary>, n: nat)
    requires Ran(a, b, entries) && Marked(a.durable, b.durable) && (Unmarked(a.script) ==> b.durable == a.durable)
    requires (r.Killed? ==> |b.script| < |a.script|) && (r.Done? ==> r.value == state)
    requires In(a, plan, state, base, n) ==> At(state, b.world, plan, base, n)
    requires In(a, plan, state, base, n) && Smooth(a, plan, state) ==>
      !r.Failed? && Undisturbed(b.world, plan) && (r.Killed? || Healthy(b.world, plan))
    ensures Stage(a, b, plan, r, entries, state, base, n, n)
  {
    hide At, Apart, Healthy, InTime, Finishing, Gentle, Unmarked, Steady;
    GentleUnmarked(a.script);
    AdvancesGentle(a.script, b.script);
    if In(a, plan, state, base, n) {
      MarkedOn(state, a.durable, b.durable);
      MarkedAt(state, b.durable, b.world, plan, base, n);
    }
  }

  lemma RanWorld(a: Moment, b: Moment, world: World, entries: seq<Entry>)
    requires Ran(a, b, entries) && (b.world.patches.targets == Mixed ==> world.patches.targets == Mixed)
    requires Accepts(b.world.runtime) ==> world.runtime == b.world.runtime
    ensures Ran(a, b.(world := world), entries)
  {
  }

  /** Call an owner's install; the event says what becomes of it. */
  method Call(m: Machine, owner: Owner) returns (e: Event, ghost entries: seq<Entry>)
    modifies m`script, m`durable, m`log
    ensures Ran(old(Now(m)), Now(m), entries) && entries == [Install(owner, old(m.durable.phase))]
    ensures Marked(old(m.durable), m.durable) && (Unmarked(old(m.script)) ==> m.durable == old(m.durable))
    ensures (e.Go? || e.Die? || e.Fail?) && (Gentle(old(m.script)) ==> !e.Fail?)
    ensures e == Upcoming(old(m.script))
    ensures e.Die? ==> |m.script| < |old(m.script)|
    ensures Steady(old(m.script)) ==> e == Go && Steady(m.script) && m.durable == old(m.durable)
  {
    ghost var before := m.durable;
    entries := [Install(owner, before.phase)];
    m.log := m.log + entries;
    e := m.Next();
    MarkedOnward(before, m.durable);
    SteadyUnmarked(old(m.script));
  }

  lemma SteadyUnmarked(script: seq<Event>)
    ensures Steady(script) ==> Unmarked(script) && Gentle(script)
  {
  }

  predicate TakesEffect(e: Event) {
    e.Go? || (!e.Mark? && e.effect.All?)
  }

  predicate InPart(e: Event) {
    (e.Die? || e.Fail?) && e.effect.Part?
  }

  /** Of what an owner was to do, all takes effect, or a part, or nothing. */
  lemma EffectsMean(e: Event)
    ensures TakesEffect(e) <==> e == Go || e == Die(All) || e == Fail(All)
    ensures InPart(e) <==> e == Die(Part) || e == Fail(Part)
  {
  }

  function Ending(e: Event, state: State): Reply<State> {
    if e.Die? then Killed else if e.Fail? then Failed(OwnerFailed) else Done(state)
  }

  /** What a call of its installer leaves of the licensed file. */
  ghost function LicensedNext(licensed: Licensed, effect: Effect): Licensed {
    match (licensed, effect)
    case (LicensedRolledBack, _) => licensed
    case (LicensedRecovery, _) => licensed
    case (_, All) => Installed
    case (NoJournal, Part) => Planned
    case _ => licensed
  }

  /** The licensed file: refused once it was rolled back. */
  method CallThreading(m: Machine, state: State, ghost base: seq<Boundary>, ghost n: nat)
    returns (r: Reply<State>, ghost entries: seq<Entry>)
    modifies m`script, m`durable, m`log, m`world
    ensures Stage(old(Now(m)), Now(m), m.plan, r, entries, state, base, n, n)
    ensures entries == [Install(ThreadingOwner, old(m.durable.phase))]
    ensures m.world == old(m.world).(licensed := LicensedNext(old(m.world.licensed), EffectOf(Upcoming(old(m.script)))))
    ensures r.Done? ==> r.value == state && m.world.licensed == Installed
    ensures r.Failed? ==> r.error == OwnerFailed
  {
    hide Ran, Gentle, Unmarked, Steady, Apart, OnLine, Marked;
    var e;
    e, entries := Call(m, ThreadingOwner);
    ghost var called := Now(m);
    if m.world.licensed == LicensedRolledBack || m.world.licensed == LicensedRecovery {
      r := if e.Die? then Killed else Failed(OwnerFailed);
    } else {
      var licensed := if TakesEffect(e) then Installed
                      else if InPart(e) && m.world.licensed == NoJournal then Planned
                      else m.world.licensed;
      m.world := m.world.(licensed := licensed);
      r := Ending(e, state);
    }
    RanWorld(old(Now(m)), called, m.world, entries);
    ActionStage(old(Now(m)), Now(m), m.plan, r, entries, state, base, n);
  }

  /** One event; what it does to the owners is not decided yet. */
  method Act(m: Machine) returns (e: Event)
    modifies m`script, m`durable
    ensures Ran(old(Now(m)), Now(m), [])
    ensures Marked(old(m.durable), m.durable) && (Unmarked(old(m.script)) ==> m.durable == old(m.durable))
    ensures (e.Go? || e.Die? || e.Fail?) && (Gentle(old(m.script)) ==> !e.Fail?)
    ensures e == Upcoming(old(m.script))
    ensures e.Die? ==> |m.script| < |old(m.script)|
    ensures Steady(old(m.script)) ==> e == Go && Steady(m.script) && m.durable == old(m.durable)
  {
    hide Sane, InTime, Onward;
    ghost var before := m.durable;
    e := m.Next();
    MarkedInTime(before, m.durable);
    SteadyUnmarked(old(m.script));
    assert m.log == old(m.log) + [];
  }

  /** The installer takes a child that is not rolled back, or restored, for unfinished. */
  predicate Installable(runtime: Runtime) {
    runtime.NoChild? || runtime.status == Restored || runtime.status == ChildRolledBack
  }

  /** The runtime: a new child, first its directory and then its journal and files, unless
      another one is in the way. */
  method CallRuntime(m: Machine, state: State, ghost base: seq<Boundary>, ghost n: nat)
    returns (r: Reply<State>, child: Id, ghost entries: seq<Entry>)
    requires 3 <= n && !m.plan.keepRuntime
    requires In(Now(m), m.plan, state, base, n) ==> n < 4 && Idle(m.world.runtime)
    modifies m`script, m`durable, m`log, m`world, m`nextId
    ensures Stage(old(Now(m)), Now(m), m.plan, r, entries, state, base, n, n)
    ensures entries == [Install(RuntimeOwner, old(m.durable.phase))]
    ensures m.world == old(m.world).(runtime := m.world.runtime)
    ensures r.Done? ==> r.value == state && m.world.runtime == Child(child, ChildInstalled)
    ensures r.Failed? ==> r.error == OwnerFailed
  {
    hide Stage, In, Idle, Installable;
    ghost var a := Now(m);
    r, child, entries := ReserveChild(m, state, base, n);
    if r.Done? {
      ghost var b := Now(m);
      r := InstallChild(m, state, child, base, n);
      StageOn(a, b, Now(m), m.plan, state, state, r, entries, [], base, n, n, n);
      assert entries + [] == entries;
    }
  }

  method ReserveChild(m: Machine, state: State, ghost base: seq<Boundary>, ghost n: nat)
    returns (r: Reply<State>, child: Id, ghost entries: seq<Entry>)
    requires 3 <= n && !m.plan.keepRuntime
    requires In(Now(m), m.plan, state, base, n) ==> n < 4 && Idle(m.world.runtime)
    modifies m`script, m`durable, m`log, m`world, m`nextId
    ensures Stage(old(Now(m)), Now(m), m.plan, r, entries, state, base, n, n)
    ensures entries == [Install(RuntimeOwner, old(m.durable.phase))]
    ensures m.world == old(m.world).(runtime := m.world.runtime)
    ensures In(old(Now(m)), m.plan, state, base, n) ==> n < 4
    ensures m.world.runtime == if Installable(old(m.world.runtime)) && EffectOf(Upcoming(old(m.script))) != Nothing
                               then Child(child, Bare) else old(m.world.runtime)
    ensures child == old(m.nextId) && m.nextId == child + if Installable(old(m.world.runtime)) then 1 else 0
    ensures r.Done? ==> r.value == state && m.world.runtime == Child(child, Bare)
    ensures r.Failed? ==> r.error == OwnerFailed
  {
    hide Ran, Gentle, Unmarked, Steady, Apart, OnLine, Marked;
    var e;
    e, entries := Call(m, RuntimeOwner);
    ghost var called := Now(m);
    child := m.nextId;
    if !Installable(m.world.runtime) {
      r := if e.Die? then Killed else Failed(OwnerFailed);
    } else {
      m.nextId := m.nextId + 1;
      if TakesEffect(e) || InPart(e) {
        m.world := m.world.(runtime := Child(child, Bare));
      }
      r := Ending(e, state);
    }
    RanWorld(old(Now(m)), called, m.world, entries);
    ActionStage(old(Now(m)), Now(m), m.plan, r, entries, state, base, n);
  }

  method InstallChild(m: Machine, state: State, child: Id, ghost base: seq<Boundary>, ghost n: nat) returns (r: Reply<State>)
    requires 3 <= n && !m.plan.keepRuntime && m.world.runtime == Child(child, Bare)
    modifies m`script, m`durable, m`world
    ensures Stage(old(Now(m)), Now(m), m.plan, r, [], state, base, n, n)
    ensures m.world == old(m.world).(runtime := Child(child, match EffectOf(Upcoming(old(m.script)))
                                                             case All => ChildInstalled
                                                             case Part => Unfinished
                                                             case Nothing => Bare))
    ensures r.Done? ==> r.value == state && m.world.runtime == Child(child, ChildInstalled)
    ensures r.Failed? ==> r.error == OwnerFailed
  {
    hide Ran, Gentle, Unmarked, Steady, OnLine, Marked, In;
    var e := Act(m);
    ghost var acted := Now(m);
    if TakesEffect(e) {
      m.world := m.world.(runtime := Child(child, ChildInstalled));
    } else if InPart(e) {
      m.world := m.world.(runtime := Child(child, Unfinished));
    }
    r := Ending(e, state);
    RanWorld(old(Now(m)), acted, m.world, []);
    ChildInstalls(old(Now(m)), Now(m), m.plan, child, state, base, n);
    ActionStage(old(Now(m)), Now(m), m.plan, r, [], state, base, n);
  }

  /** Before the boundary of the runtime, its child may be in any state. */
  lemma ChildInstalls(a: Moment, b: Moment, plan: Plan, child: Id, state: State, base: seq<Boundary>, n: nat)
    requires 3 <= n && !plan.keepRuntime && a.world.runtime == Child(child, Bare)
    requires b.world == a.world.(runtime := b.world.runtime) && b.world.runtime.Child?
    requires b.world.runtime.status in {Bare, Unfinished, ChildInstalled}
    ensures In(a, plan, state, base, n) ==> At(state, b.world, plan, base, n)
    ensures Smooth(a, plan, state) ==> Healthy(b.world, plan)
  {
    hide OnLine, Line, Apart, Marked, Gentle;
  }

  /** What a call of its installer leaves of the patched files. */
  ghost function PatchesNext(patches: Patches, effect: Effect, backup: nat): Patches {
    match (patches.targets, effect)
    case (Original, All) => Patches(Patched, Some(backup))
    case (Original, Part) => Patches(Mixed, None)
    case _ => patches
  }

  /** The patches: all four files, from the original, with a backup of their own. */
  method CallPatches(m: Machine, state: State, ghost base: seq<Boundary>, ghost n: nat)
    returns (r: Reply<State>, backup: nat, ghost entries: seq<Entry>)
    requires In(Now(m), m.plan, state, base, n) ==> n == 5 && !m.plan.keepPatches
    requires In(Now(m), m.plan, state, base, n) && Smooth(Now(m), m.plan, state) ==> m.world.patches.targets == Original
    modifies m`script, m`durable, m`log, m`world, m`nextId
    ensures Stage(old(Now(m)), Now(m), m.plan, r, entries, state, base, n, n)
    ensures entries == [Install(PatchOwner, old(m.durable.phase))]
    ensures m.world == old(m.world).(patches := m.world.patches)
    ensures m.world.patches == PatchesNext(old(m.world.patches), EffectOf(Upcoming(old(m.script))), backup)
    ensures backup == old(m.nextId) && m.nextId == backup + if old(m.world.patches.targets) == Original then 1 else 0
    ensures r.Done? ==> r.value == state && m.world.patches == Patches(Patched, Some(backup))
    ensures r.Failed? ==> r.error == OwnerFailed
  {
    hide Ran, Gentle, Unmarked, Steady, Apart, OnLine, Marked;
    var e;
    e, entries := Call(m, PatchOwner);
    ghost var called := Now(m);
    backup := m.nextId;
    if m.world.patches.targets != Original {
      r := if e.Die? then Killed else Failed(OwnerFailed);
    } else {
      m.nextId := m.nextId + 1;
      if TakesEffect(e) {
        m.world := m.world.(patches := Patches(Patched, Some(backup)));
      } else if InPart(e) {
        m.world := m.world.(patches := Patches(Mixed, None));
      }
      r := Ending(e, state);
    }
    RanWorld(old(Now(m)), called, m.world, entries);
    ActionStage(old(Now(m)), Now(m), m.plan, r, entries, state, base, n);
  }

  /** The runtime answers for the child that is expected of it. */
  method CheckRuntime(m: Machine, state: State, child: Option<Id>, ghost base: seq<Boundary>, ghost n: nat)
    returns (r: Reply<State>, ghost entries: seq<Entry>)
    requires In(Now(m), m.plan, state, base, n) && Smooth(Now(m), m.plan, state) ==>
      RuntimeAnswers(m.world.runtime, m.plan, child)
    modifies m`script, m`durable, m`log
    ensures Stage(old(Now(m)), Now(m), m.plan, r, entries, state, base, n, n) && (r.Done? ==> r.value == state)
    ensures r.Done? ==> RuntimeAnswers(m.world.runtime, m.plan, child) && entries == [Checked(RuntimeAnswer)]
    ensures r.Failed? ==> r.error == OwnerFailed
  {
    hide Ran, Gentle, Unmarked, Steady, Apart, OnLine, Marked, At, Finishing;
    r, entries := Verify(m, state, RuntimeAnswer, base, n);
    if r.Done? && !RuntimeAnswers(m.world.runtime, m.plan, child) {
      r := Failed(OwnerFailed);
    }
  }

  predicate RuntimeAnswers(runtime: Runtime, plan: Plan, child: Option<Id>) {
    if plan.keepRuntime then child.None?
    else child.Some? && runtime == Child(child.value, ChildInstalled)
  }

  // What is done, in its order ----------------------------------------------------------------------

  /** The entries of a log, without the phases that the installs were called in. */
  ghost function Shape(entries: seq<Entry>): (shape: seq<Entry>)
    ensures |shape| == |entries|
  {
    seq(|entries|, i requires 0 <= i < |entries| => if entries[i].Install? then entries[i].(phase := New) else entries[i])
  }

  /** No owner was called. */
  ghost predicate OnlyChecks(entries: seq<Entry>) {
    forall e | e in entries :: e.Checked?
  }

  lemma ShapeJoins(a: seq<Entry>, b: seq<Entry>)
    ensures Shape(a + b) == Shape(a) + Shape(b)
  {
  }

  lemma ShapeOfCheck(what: Check)
    ensures Shape([Checked(what)]) == [Checked(what)]
  {
  }

  lemma ShapeOfCall(owner: Owner, phase: Phase)
    ensures Shape([Install(owner, phase)]) == [Install(owner, New)]
  {
  }

  /** A call of an owner, if it is one. */
  ghost function Calls(called: bool, owner: Owner): seq<Entry> {
    if called then [Install(owner, New)] else []
  }

  /** A resumption installs the runtime only when no child of this transaction is found. */
  ghost predicate Installs(plan: Plan, state: State, resumed: bool, runtime: Runtime) {
    !plan.keepRuntime && (resumed ==> RuntimeId(state, runtime).None?)
  }

  /** A resumption applies the patches only when they are neither noted nor there. */
  ghost predicate Applies(plan: Plan, state: State, patches: Patches) {
    && !plan.keepPatches && PatchesApplied !in state.boundaries && PatchesVerified !in state.boundaries
    && PatchStatus(state, patches, plan) == Ok(RolledBackStatus)
  }

  ghost function RuntimeShape(resumed: bool, installs: bool): seq<Entry> {
    [Checked(if resumed then RuntimeChildren else Prefix)] + Calls(installs, RuntimeOwner) + [Checked(RuntimeAnswer)]
  }

  /** The prefix is looked at before every owner, and before the four checks at the end. */
  ghost function FinishShape(plan: Plan): seq<Entry> {
    [Checked(Prefix)] + Calls(!plan.keepLicensed, ThreadingOwner)
    + RuntimeShape(false, !plan.keepRuntime) + PatchShape(plan)
  }

  ghost function PatchShape(plan: Plan): seq<Entry> {
    [Checked(Prefix)] + Calls(!plan.keepPatches, PatchOwner) + [Checked(Prefix)] + CHECKS
  }

  /** A resumption calls for the licensed file again, and for the others if they are not found. */
  ghost function ResumeShape(runtime: bool, patches: bool): seq<Entry> {
    [Checked(LicensedPlan)] + Calls(true, ThreadingOwner)
    + RuntimeShape(true, runtime)
    + ([Checked(PatchTargets)] + Calls(patches, PatchOwner))
    + CHECKS
  }

  lemma ShapeOfChecks()
    ensures Shape(CHECKS) == CHECKS
  {
  }

  /** What a completed resumption has done. */
  ghost predicate Resumed(plan: Plan, entries: seq<Entry>) {
    exists runtime, patches ::
      Shape(entries) == ResumeShape(runtime, patches) && (runtime ==> !plan.keepRuntime) && (patches ==> !plan.keepPatches)
  }

  lemma ResumedShape(plan: Plan, entries: seq<Entry>, runtime: bool, patches: bool,
                     a: State, before: Runtime, b: State, targets: Patches)
    requires runtime == Installs(plan, a, true, before) && patches == Applies(plan, b, targets)
    requires Shape(entries) == ResumeShape(runtime, patches)
    ensures Resumed(plan, entries)
  {
    hide Shape, ResumeShape;
  }

  // Stages ----------------------------------------------------------------------------------------

  lemma PlainNote(state: State, world: World, plan: Plan, base: seq<Boundary>, n: nat, i: nat)
    requires At(state, world, plan, base, n) && i <= n && 2 <= i < 10 && i != 3 && i != 5
    requires Prepared(i, world, plan)
    ensures Coupled(Noted(state, Line(plan)[i], None, None), Max(n, i + 1), world, plan)
  {
    hide Line, OnLine;
  }

  /** What the licensed file and the runtime must be when their boundary is noted. */
  predicate Prepared(i: nat, world: World, plan: Plan) {
    && (i == 2 && !plan.keepLicensed ==> world.licensed == Installed)
    && (i == 4 && !plan.keepRuntime ==> world.runtime.Child? && world.runtime.status == ChildInstalled)
  }

  /** Between the calls of two owners: a check, and the next boundary without fields. */
  method PlainStep(m: Machine, state: State, boundary: Boundary, once: bool,
                   ghost base: seq<Boundary>, ghost n: nat, ghost i: nat) returns (r: Reply<State>)
    requires i <= n && 2 <= i < 10 && i != 3 && i != 5 && boundary == Line(m.plan)[i] && (once || i == n)
    requires Prepared(i, m.world, m.plan)
    modifies m`script, m`durable
    ensures Stage(old(Now(m)), Now(m), m.plan, r, [], state, base, n, Max(n, i + 1))
    ensures MayNote(old(m.durable), m.durable, boundary) && (r.Done? && !once ==> boundary in m.durable.boundaries)
  {
    hide Stage, At, Apart, Marked, Smooth, Coupled, Line, Noted;
    if In(Now(m), m.plan, state, base, n) {
      PlainNote(state, m.world, m.plan, base, n, i);
    }
    r := NoteStep(m, state, boundary, None, None, once, base, n, i);
  }

  lemma StageLogged(a: Moment, b: Moment, plan: Plan, state: State, what: Check, base: seq<Boundary>, n: nat)
    requires Stage(a, b, plan, Done(state), [], state, base, n, n)
    ensures Stage(a, b.(log := b.log + [Checked(what)]), plan, Done(state), [Checked(what)], state, base, n, n)
  {
    hide Healthy, Finishing, Advances, Apart, At;
    assert b.log == a.log;
  }

  /** A check that is remembered when it is passed. */
  method Verify(m: Machine, state: State, what: Check, ghost base: seq<Boundary>, ghost n: nat)
    returns (r: Reply<State>, ghost entries: seq<Entry>)
    modifies m`script, m`durable, m`log
    ensures Stage(old(Now(m)), Now(m), m.plan, r, entries, state, base, n, n) && (r.Done? ==> r.value == state)
    ensures entries == if r.Done? then [Checked(what)] else []
    ensures Marked(old(m.durable), m.durable) && (Unmarked(old(m.script)) ==> m.durable == old(m.durable))
    ensures Steady(old(m.script)) ==> r.Done? && m.durable == old(m.durable) && Steady(m.script)
    ensures r.Failed? ==> r.error == OwnerFailed
  {
    hide Stage;
    ghost var a := Now(m);
    r := Step(m, state, base, n);
    entries := [];
    if r.Done? {
      StageLogged(a, Now(m), m.plan, state, what, base, n);
      entries := [Checked(what)];
      m.log := m.log + entries;
    }
  }

  /** A check, and then its boundary. */
  method CheckedStep(m: Machine, state: State, what: Check, boundary: Boundary, once: bool,
                     ghost base: seq<Boundary>, ghost n: nat, ghost i: nat)
    returns (r: Reply<State>, ghost entries: seq<Entry>)
    requires i <= n && 6 <= i < 10 && boundary == Line(m.plan)[i] && (once || i == n)
    modifies m`script, m`durable, m`log
    ensures Stage(old(Now(m)), Now(m), m.plan, r, entries, state, base, n, Max(n, i + 1))
    ensures r.Done? ==> entries == [Checked(what)]
    ensures entries == [] || entries == [Checked(what)]
    ensures MayNote(old(m.durable), m.durable, boundary) && (entries == [] ==> m.durable.boundaries == old(m.durable.boundaries))
  {
    hide Stage, At, Apart, Smooth, Line;
    ghost var a := Now(m);
    r, entries := Verify(m, state, what, base, n);
    if !r.Done? {
      StageStops(a, Now(m), m.plan, r, entries, state, base, n, n, Max(n, i + 1));
      return;
    }
    ghost var b := Now(m);
    r := PlainStep(m, state, boundary, once, base, n, i);
    StageOn(a, b, Now(m), m.plan, state, state, r, entries, [], base, n, n, Max(n, i + 1));
    assert entries + [] == entries;
  }

  /** What is looked at before an owner is called: the prefix, and by a resumption something else. */
  method LookFirst(m: Machine, state: State, resumed: bool, what: Check, ghost base: seq<Boundary>, ghost n: nat)
    returns (r: Reply<State>, ghost entries: seq<Entry>)
    requires !resumed && In(Now(m), m.plan, state, base, n) && Smooth(Now(m), m.plan, state) ==> PrefixValid(state, m.world)
    modifies m`script, m`durable, m`log
    ensures Stage(old(Now(m)), Now(m), m.plan, r, entries, state, base, n, n) && (r.Done? ==> r.value == state)
    ensures r.Done? ==> entries == [Checked(if resumed then what else Prefix)]
    ensures resumed && Steady(old(m.script)) ==> r.Done? && m.durable == old(m.durable) && Steady(m.script)
  {
    hide Stage, In, Smooth, PrefixValid;
    if resumed {
      r, entries := Verify(m, state, what, base, n);
    } else {
      r, entries := ValidatePrefix(m, state, base, n);
    }
  }

  /** Install the licensed file and note it; a Finish that keeps it does not call its owner. */
  method LicensedStage(m: Machine, state: State, install: bool, once: bool, ghost base: seq<Boundary>, ghost n: nat)
    returns (r: Reply<State>, ghost entries: seq<Entry>)
    requires 2 <= n && (once || n == 2) && (install || m.plan.keepLicensed)
    modifies m`script, m`durable, m`log, m`world
    ensures Stage(old(Now(m)), Now(m), m.plan, r, entries, state, base, n, Max(n, 3))
    ensures m.world == old(m.world).(licensed := m.world.licensed)
    ensures r.Done? ==>
      Shape(entries) == [Checked(if once then LicensedPlan else Prefix)] + Calls(install, ThreadingOwner)
    ensures install && once && Steady(old(m.script)) ==>
      entries == [Checked(LicensedPlan), Install(ThreadingOwner, old(m.durable.phase))]
  {
    hide Stage, Apart, Marked, OnLine, Gentle;
    ghost var a := Now(m);
    r, entries := LookFirst(m, state, once, LicensedPlan, base, n);
    if !r.Done? {
      StageStops(a, Now(m), m.plan, r, entries, state, base, n, n, Max(n, 3));
      return;
    }
    if install {
      ghost var b, more := Now(m), [];
      r, more := CallThreading(m, state, base, n);
      StageOn(a, b, Now(m), m.plan, state, state, r, entries, more, base, n, n, n);
      entries := entries + more;
      if !r.Done? {
        StageStops(a, Now(m), m.plan, r, entries, state, base, n, n, Max(n, 3));
        return;
      }
    }
    ghost var c := Now(m);
    r := PlainStep(m, state, LicensedInstalled, once, base, n, 2);
    StageOn(a, c, Now(m), m.plan, state, state, r, entries, [], base, n, n, Max(n, 3));
    assert entries + [] == entries;
  }

  /** The child that is installed: the one that a dead process left, or a new one. */
  method ChildStage(m: Machine, state: State, resumed: bool, ghost base: seq<Boundary>, ghost n: nat)
    returns (r: Reply<State>, child: Option<Id>, ghost entries: seq<Entry>)
    requires 3 <= n && (resumed || n == 3) && (n == 3 ==> Idle(m.world.runtime))
    modifies m`script, m`durable, m`log, m`world, m`nextId
    ensures Stage(old(Now(m)), Now(m), m.plan, r, entries, state, base, n, Max(n, 4))
    ensures m.world == old(m.world).(runtime := m.world.runtime)
    ensures resumed && old(RuntimeId(state, m.world.runtime).Some?) ==> m.world == old(m.world)
    ensures r.Done? && In(Now(m), m.plan, r.value, base, Max(n, 4)) ==>
      RuntimeAnswers(m.world.runtime, m.plan, child)
    ensures r.Done? ==>
      Shape(entries) == [Checked(if resumed then RuntimeChildren else Prefix)]
                        + Calls(Installs(m.plan, state, resumed, old(m.world.runtime)), RuntimeOwner)
  {
    hide Stage, Apart, Marked, Gentle, OnLine, Shape, MayNote;
    ghost var a := Now(m);
    child := if resumed then RuntimeId(state, m.world.runtime) else None;
    r, entries := LookFirst(m, state, resumed, RuntimeChildren, base, n);
    if !r.Done? {
      StageStops(a, Now(m), m.plan, r, entries, state, base, n, n, Max(n, 4));
      return;
    }
    ShapeOfCheck(if resumed then RuntimeChildren else Prefix);
    if !m.plan.keepRuntime && child.None? {
      ghost var b, more := Now(m), [];
      var id;
      r, id, more := CallRuntime(m, state, base, n);
      ShapeOfCall(RuntimeOwner, b.durable.phase);
      child := Some(id);
      StageOn(a, b, Now(m), m.plan, state, state, r, entries, more, base, n, n, n);
      ShapeJoins(entries, more);
      entries := entries + more;
      if !r.Done? {
        StageStops(a, Now(m), m.plan, r, entries, state, base, n, n, Max(n, 4));
        return;
      }
    }
    ghost var c := Now(m);
    var noted := if resumed && state.child.Some? then None else child;
    r := NoteStep(m, state, RuntimeInstalled, noted, None, resumed, base, n, 3);
    StageOn(a, c, Now(m), m.plan, state, state, r, entries, [], base, n, n, Max(n, 4));
    assert entries + [] == entries;
  }

  lemma AnswersPrepared(world: World, plan: Plan, child: Option<Id>)
    requires RuntimeAnswers(world.runtime, plan, child)
    ensures Prepared(4, world, plan)
  {
  }

  /** The child, what the runtime says of it, and the boundaries of both. */
  method RuntimeStage(m: Machine, state: State, resumed: bool, ghost base: seq<Boundary>, ghost n: nat)
    returns (r: Reply<State>, ghost entries: seq<Entry>)
    requires 3 <= n && (resumed || n == 3) && (n == 3 ==> Idle(m.world.runtime))
    modifies m`script, m`durable, m`log, m`world, m`nextId
    ensures Stage(old(Now(m)), Now(m), m.plan, r, entries, state, base, n, Max(n, 5))
    ensures m.world == old(m.world).(runtime := m.world.runtime)
    ensures r.Done? ==>
      Shape(entries) == RuntimeShape(resumed, Installs(m.plan, state, resumed, old(m.world.runtime)))
  {
    hide Stage, In, Smooth, RuntimeAnswers, Idle, Installs, Shape;
    ghost var a, more := Now(m), [];
    var child;
    r, child, entries := ChildStage(m, state, resumed, base, n);
    if !r.Done? {
      StageStops(a, Now(m), m.plan, r, entries, state, base, n, Max(n, 4), Max(n, 5));
      return;
    }
    var noted := r.value;
    ghost var b := Now(m);
    r, more := CheckRuntime(m, noted, child, base, Max(n, 4));
    StageOn(a, b, Now(m), m.plan, state, noted, r, entries, more, base, n, Max(n, 4), Max(n, 4));
    ShapeJoins(entries, more);
    entries := entries + more;
    if !r.Done? {
      StageStops(a, Now(m), m.plan, r, entries, state, base, n, Max(n, 4), Max(n, 5));
      return;
    }
    ShapeOfCheck(RuntimeAnswer);
    ghost var c := Now(m);
    AnswersPrepared(m.world, m.plan, child);
    r := PlainStep(m, noted, RuntimeStatusVerified, resumed, base, Max(n, 4), 4);
    StageOn(a, c, Now(m), m.plan, state, noted, r, entries, [], base, n, Max(n, 4), Max(n, 5));
    assert entries + [] == entries;
  }

  /** Apply the patches and note them, or note that they are there. */
  method ApplyStage(m: Machine, state: State, once: bool, ghost base: seq<Boundary>, ghost n: nat)
    returns (r: Reply<State>, ghost entries: seq<Entry>)
    requires n == 5
    requires In(Now(m), m.plan, state, base, n) && Smooth(Now(m), m.plan, state) && !m.plan.keepPatches ==>
      m.world.patches.targets == Original
    modifies m`script, m`durable, m`log, m`world, m`nextId
    ensures r.Done? ==> Shape(entries) == Calls(!m.plan.keepPatches, PatchOwner)
    ensures r.Done? && PatchNote(m.plan) in state.boundaries ==> once
    ensures forall e | e in entries :: e.Install?
    ensures Stage(old(Now(m)), Now(m), m.plan, r, entries, state, base, n, Max(n, 6))
  {
    hide Stage, Apart, Marked, Gentle, OnLine;
    ghost var a := Now(m);
    entries := [];
    if m.plan.keepPatches {
      r := NoteStep(m, state, PatchesVerified, None, None, once, base, n, 5);
    } else {
      var backup;
      r, backup, entries := CallPatches(m, state, base, n);
      if !r.Done? {
        StageStops(a, Now(m), m.plan, r, entries, state, base, n, n, Max(n, 6));
        return;
      }
      ghost var b := Now(m);
      r := NoteStep(m, state, PatchesApplied, None, Some(backup), once, base, n, 5);
      StageOn(a, b, Now(m), m.plan, state, state, r, entries, [], base, n, n, Max(n, 6));
      assert entries + [] == entries;
    }
  }

  ghost function PatchNote(plan: Plan): Boundary {
    if plan.keepPatches then PatchesVerified else PatchesApplied
  }

  /** The patches are not as it was noted. */
  ghost predicate Misplaced(plan: Plan, state: State, patches: Patches) {
    && PatchStatus(state, patches, plan).Ok? && (PatchesApplied in state.boundaries || PatchesVerified in state.boundaries)
    && PatchStatus(state, patches, plan) != Ok(if PatchesApplied in state.boundaries then Pending else NotApplicable)
  }

  /** A resumed Finish looks at the patches before it touches them. */
  method ResumePatches(m: Machine, state: State, ghost base: seq<Boundary>, ghost n: nat)
    returns (r: Reply<State>, ghost entries: seq<Entry>)
    requires 5 <= n
    modifies m`script, m`durable, m`log, m`world, m`nextId
    ensures Stage(old(Now(m)), Now(m), m.plan, r, entries, state, base, n, Max(n, 6))
    ensures old(m.world.patches.targets) == Patched ==> m.world == old(m.world)
    ensures r.Done? ==>
      Shape(entries) == [Checked(PatchTargets)] + Calls(Applies(m.plan, state, old(m.world.patches)), PatchOwner)
    ensures Steady(old(m.script)) && Misplaced(m.plan, state, old(m.world.patches)) ==> r == Failed(UnexpectedChanges)
  {
    hide Stage, Marked, Gentle, Apart, Undisturbed;
    ghost var a, more := Now(m), [];
    r, entries := Verify(m, state, PatchTargets, base, n);
    ShapeOfCheck(PatchTargets);
    if !r.Done? {
      StageStops(a, Now(m), m.plan, r, entries, state, base, n, n, Max(n, 6));
      return;
    }
    ghost var b := Now(m);
    var status := PatchStatus(state, m.world.patches, m.plan);
    var applied := PatchesApplied in state.boundaries;
    if In(b, m.plan, state, base, n) {
      PatchBoundary(m.plan, base, n);
    }
    if status.Err? {
      r := Failed(status.error);
      StageFails(a, b, m.plan, r, entries, state, base, n, Max(n, 6));
    } else if applied || PatchesVerified in state.boundaries {
      if status.value != (if applied then Pending else NotApplicable) {
        r := Failed(UnexpectedChanges);
        StageFails(a, b, m.plan, r, entries, state, base, n, Max(n, 6));
      } else {
        r := Done(state);
        StageSame(a, b, m.plan, entries, state, base, n, Max(n, 6));
      }
    } else if status.value.Pending? {
      r := NoteStep(m, state, PatchesApplied, None, BackupPath(state, m.world.patches), true, base, n, 5);
      StageOn(a, b, Now(m), m.plan, state, state, r, entries, [], base, n, n, Max(n, 6));
      assert entries + [] == entries;
    } else if status.value.NotApplicable? {
      r := NoteStep(m, state, PatchesVerified, None, None, true, base, n, 5);
      StageOn(a, b, Now(m), m.plan, state, state, r, entries, [], base, n, n, Max(n, 6));
      assert entries + [] == entries;
    } else {
      r, more := ApplyStage(m, state, true, base, 5);
      if !In(b, m.plan, state, base, n) {
        StageVacuous(b, Now(m), m.plan, r, more, state, base, 5, 6, n, Max(n, 6));
      }
      StageOn(a, b, Now(m), m.plan, state, state, r, entries, more, base, n, n, Max(n, 6));
      ShapeJoins(entries, more);
      entries := entries + more;
    }
  }

  const CHECKS: seq<Entry> :=
    [Checked(Doctor), Checked(AfterFinish), Checked(Comparison), Checked(LaunchOptions)]

  /** The doctor, the snapshot, its comparison with the plan, and the launch options.
      Finish notes a comparison before it looks at its result, and a resumed one after. */
  method VerifyStage(m: Machine, state: State, once: bool, ghost base: seq<Boundary>, ghost n: nat)
    returns (r: Reply<State>, ghost entries: seq<Entry>)
    requires 6 <= n && (once || n == 6)
    modifies m`script, m`durable, m`log
    ensures Stage(old(Now(m)), Now(m), m.plan, r, entries, state, base, n, Max(n, 10))
    ensures r.Done? ==> entries == CHECKS
    ensures ComparedInOrder(once, entries, old(m.durable), m.durable)
  {
    hide Stage, In, Smooth, MayNote, ComparedInOrder;
    ghost var a, more := Now(m), [];
    r, entries := CheckedStep(m, state, Doctor, DoctorPassed, once, base, n, 6);
    OrderOther(once, entries, a.durable, m.durable, DoctorPassed);
    if !r.Done? {
      StageStops(a, Now(m), m.plan, r, entries, state, base, n, Max(n, 7), Max(n, 10));
      return;
    }
    ghost var b := Now(m);
    var checked := r.value;
    r, more := CheckedStep(m, checked, AfterFinish, AfterSnapshot, once, base, Max(n, 7), 7);
    StageOn(a, b, Now(m), m.plan, state, checked, r, entries, more, base, n, Max(n, 7), Max(n, 8));
    OrderOther(once, more, b.durable, m.durable, AfterSnapshot);
    OrderOn(once, entries, more, a.durable, b.durable, m.durable);
    entries := entries + more;
    if !r.Done? {
      StageStops(a, Now(m), m.plan, r, entries, state, base, n, Max(n, 8), Max(n, 10));
      return;
    }
    ghost var c := Now(m);
    var captured := r.value;
    r, more := CompareStep(m, captured, once, base, Max(n, 8));
    StageOn(a, c, Now(m), m.plan, state, captured, r, entries, more, base, n, Max(n, 8), Max(n, 9));
    OrderOn(once, entries, more, a.durable, c.durable, m.durable);
    entries := entries + more;
    if !r.Done? {
      StageStops(a, Now(m), m.plan, r, entries, state, base, n, Max(n, 9), Max(n, 10));
      return;
    }
    ghost var d := Now(m);
    var compared := r.value;
    r, more := CheckedStep(m, compared, LaunchOptions, SteamOptionsVerified, once, base, Max(n, 9), 9);
    StageOn(a, d, Now(m), m.plan, state, compared, r, entries, more, base, n, Max(n, 9), Max(n, 10));
    OrderOther(once, more, d.durable, m.durable, SteamOptionsVerified);
    OrderOn(once, entries, more, a.durable, d.durable, m.durable);
    entries := entries + more;
  }

  /** Finish passes the comparison only when it is noted, a resumption notes it only when it is passed. */
  ghost predicate ComparedInOrder(once: bool, entries: seq<Entry>, before: State, after: State) {
    && before.boundaries <= after.boundaries
    && if once then
         SnapshotsCompared in after.boundaries ==> SnapshotsCompared in before.boundaries || Checked(Comparison) in entries
       else Checked(Comparison) in entries ==> SnapshotsCompared in after.boundaries
  }

  /** Any other check. */
  lemma OrderOther(once: bool, entries: seq<Entry>, before: State, after: State, boundary: Boundary)
    requires MayNote(before, after, boundary) && boundary != SnapshotsCompared && Checked(Comparison) !in entries
    ensures ComparedInOrder(once, entries, before, after)
  {
  }

  lemma OrderOn(once: bool, e: seq<Entry>, f: seq<Entry>, a: State, b: State, c: State)
    requires ComparedInOrder(once, e, a, b) && ComparedInOrder(once, f, b, c)
    ensures ComparedInOrder(once, e + f, a, c)
  {
  }

  method CompareStep(m: Machine, state: State, once: bool, ghost base: seq<Boundary>, ghost n: nat)
    returns (r: Reply<State>, ghost entries: seq<Entry>)
    requires 8 <= n && (once || n == 8)
    modifies m`script, m`durable, m`log
    ensures Stage(old(Now(m)), Now(m), m.plan, r, entries, state, base, n, Max(n, 9))
    ensures r.Done? ==> entries == [Checked(Comparison)]
    ensures ComparedInOrder(once, entries, old(m.durable), m.durable)
    ensures MayNote(old(m.durable), m.durable, SnapshotsCompared) && (entries == [] || entries == [Checked(Comparison)])
  {
    hide Stage, In, Smooth;
    if once {
      r, entries := CheckedStep(m, state, Comparison, SnapshotsCompared, once, base, n, 8);
    } else {
      entries := [];
      ghost var a := Now(m);
      r := PlainStep(m, state, SnapshotsCompared, once, base, n, 8);
      if r.Done? {
        ghost var b, more := Now(m), [];
        var noted := r.value;
        r, more := Verify(m, noted, Comparison, base, Max(n, 9));
        StageOn(a, b, Now(m), m.plan, state, noted, r, [], more, base, n, Max(n, 9), Max(n, 9));
        assert [] + more == more;
        entries := more;
      }
    }
  }

  // The whole line --------------------------------------------------------------------------------

  /** The end of the line: every boundary, each of them once and in its place. */
  ghost predicate AtEnd(b: Moment, plan: Plan, state: State, base: seq<Boundary>) {
    b.durable == state && state.phase == ReadyToAttempt && At(state, b.world, plan, base, 11)
  }

  /** What a run does that leads a process from n boundaries to the end. */
  ghost predicate Ends(a: Moment, b: Moment, plan: Plan, r: Reply<State>, entries: seq<Entry>,
                       state: State, base: seq<Boundary>, n: nat)
  {
    && Ran(a, b, entries)
    && (r.Killed? ==> |b.script| < |a.script|)
    && (In(a, plan, state, base, n) ==>
          Finishing(b.durable, b.world, plan, base) && (r.Done? ==> AtEnd(b, plan, r.value, base)))
    && (In(a, plan, state, base, n) && Smooth(a, plan, state) ==>
          !r.Failed? && Gentle(b.script) && Undisturbed(b.world, plan))
  }

  lemma EndsOn(a: Moment, b: Moment, c: Moment, plan: Plan, state: State, middle: State, r: Reply<State>,
               e: seq<Entry>, f: seq<Entry>, base: seq<Boundary>, n: nat, k: nat)
    requires Stage(a, b, plan, Done(middle), e, state, base, n, k) && Ends(b, c, plan, r, f, middle, base, k)
    ensures Ends(a, c, plan, r, e + f, state, base, n)
  {
    hide Ran, In, Undisturbed, Finishing, Gentle, AtEnd;
    RanOn(a, b, c, e, f);
    RanShorter(a, b, e);
    RanShorter(b, c, f);
  }

  lemma EndsEarly(a: Moment, b: Moment, plan: Plan, r: Reply<State>, e: seq<Entry>, state: State,
                  base: seq<Boundary>, n: nat, k: nat)
    requires Stage(a, b, plan, r, e, state, base, n, k) && !r.Done?
    ensures Ends(a, b, plan, r, e, state, base, n)
  {
  }

  lemma ReadyNext(state: State, world: World, plan: Plan, base: seq<Boundary>)
    requires Apart(plan, base) && state.phase == InstallingFinish && At(state, world, plan, base, 10)
    ensures var next := state.(phase := ReadyToAttempt, boundaries := state.boundaries + [Ready]);
      At(next, world, plan, base, 11)
      && Transitioned(state, state, state.phase, ReadyToAttempt, WithBoundary(state, Ready)) == Ok(next)
  {
    LineAt(plan, base, 10, 10);
    LineAt(plan, base, 11, 10);
    assert Line(plan)[..11] == Line(plan)[..10] + [Line(plan)[10]];
  }

  method ReadyStep(m: Machine, state: State, ghost base: seq<Boundary>, ghost n: nat) returns (r: Reply<State>)
    requires 10 <= n
    modifies m`script, m`durable
    ensures Ends(old(Now(m)), Now(m), m.plan, r, [], state, base, n)
    ensures MayNote(old(m.durable), m.durable, Ready)
  {
    hide Coupled, OnLine, Line, Transitioned, Advances, InTime, Gentle, Finishing, Sane, Apart, Marked;
    ghost var live := In(Now(m), m.plan, state, base, n);
    ghost var next := state.(phase := ReadyToAttempt, boundaries := state.boundaries + [Ready]);
    if live {
      PhaseThere(state, m.world, m.plan, base, n);
      ReadyNext(state, m.world, m.plan, base);
    }
    var update := WithBoundary(state, Ready);
    r := Advance(m, state, ReadyToAttempt, update, live, base, n, next, 11);
    assert m.log == old(m.log) + [];
  }

  /** Resume in the middle: every owner is looked at or called again, what is noted stays. */
  method ResumeLine(m: Machine, state: State, ghost base: seq<Boundary>, ghost n: nat)
    returns (r: Reply<State>, ghost entries: seq<Entry>)
    requires 2 <= n && (n <= 3 ==> Idle(m.world.runtime))
    modifies m`script, m`durable, m`log, m`world, m`nextId
    ensures Ends(old(Now(m)), Now(m), m.plan, r, entries, state, base, n) && (r.Done? ==> AllChecked(entries))
    ensures r.Done? ==> Resumed(m.plan, entries)
    ensures Steady(old(m.script)) ==> |entries| > 1 && entries[1] == Install(ThreadingOwner, old(m.durable.phase))
  {
    hide Stage, In, Smooth, Ends, Shape, RuntimeShape, Calls, Installs, Applies;
    ghost var a := Now(m);
    ghost var more;
    r, entries := LicensedStage(m, state, true, true, base, n);
    if !r.Done? {
      EndsEarly(a, Now(m), m.plan, r, entries, state, base, n, Max(n, 3));
      return;
    }
    var installed := r.value;
    ghost var b := Now(m);
    r, more := RuntimeStage(m, installed, true, base, Max(n, 3));
    StageOn(a, b, Now(m), m.plan, state, installed, r, entries, more, base, n, Max(n, 3), Max(n, 5));
    ShapeJoins(entries, more);
    entries := entries + more;
    if !r.Done? {
      EndsEarly(a, Now(m), m.plan, r, entries, state, base, n, Max(n, 5));
      return;
    }
    ghost var installs := Installs(m.plan, installed, true, b.world.runtime);
    var running := r.value;
    ghost var c := Now(m);
    r, more := ResumePatches(m, running, base, Max(n, 5));
    StageOn(a, c, Now(m), m.plan, state, running, r, entries, more, base, n, Max(n, 5), Max(n, 6));
    ShapeJoins(entries, more);
    entries := entries + more;
    if !r.Done? {
      EndsEarly(a, Now(m), m.plan, r, entries, state, base, n, Max(n, 6));
      return;
    }
    ghost var applies := Applies(m.plan, running, c.world.patches);
    var patched := r.value;
    ghost var d := Now(m);
    r, more := LastStages(m, patched, true, base, Max(n, 6));
    EndsOn(a, d, Now(m), m.plan, state, patched, r, entries, more, base, n, Max(n, 6));
    ChecksLast(entries);
    ShapeJoins(entries, more);
    ShapeOfChecks();
    if r.Done? {
      ResumedShape(m.plan, entries + more, installs, applies, installed, b.world.runtime, running, c.world.patches);
    }
    entries := entries + more;
  }

  method LastStages(m: Machine, state: State, once: bool, ghost base: seq<Boundary>, ghost n: nat)
    returns (r: Reply<State>, ghost entries: seq<Entry>)
    requires 6 <= n && (once || n == 6)
    modifies m`script, m`durable, m`log
    ensures Ends(old(Now(m)), Now(m), m.plan, r, entries, state, base, n)
    ensures r.Done? ==> entries == CHECKS
    ensures ComparedInOrder(once, entries, old(m.durable), m.durable)
  {
    hide Stage, In, Smooth, Ends, MayNote, ComparedInOrder;
    ghost var a := Now(m);
    r, entries := VerifyStage(m, state, once, base, n);
    if !r.Done? {
      EndsEarly(a, Now(m), m.plan, r, entries, state, base, n, Max(n, 10));
      return;
    }
    var verified := r.value;
    ghost var b := Now(m);
    r := ReadyStep(m, verified, base, Max(n, 10));
    OrderOther(once, [], b.durable, m.durable, Ready);
    OrderOn(once, entries, [], a.durable, b.durable, m.durable);
    EndsOn(a, b, Now(m), m.plan, state, verified, r, entries, [], base, n, Max(n, 10));
    assert entries + [] == entries;
  }

  /** The last that was done are the four checks, in their order. */
  ghost predicate AllChecked(entries: seq<Entry>) {
    4 <= |entries| && entries[|entries| - 4..] == CHECKS
  }

  lemma CheckedLast(a: seq<Entry>, b: seq<Entry>)
    ensures AllChecked(b) ==> AllChecked(a + b)
  {
    if AllChecked(b) {
      assert (a + b)[|a + b| - 4..] == b[|b| - 4..];
    }
  }

  lemma ChecksLast(entries: seq<Entry>)
    ensures AllChecked(entries + CHECKS)
  {
  }

  /** Once the runtime is noted, its child is named. */
  lemma PrefixHolds(m: Machine, state: State, base: seq<Boundary>, n: nat)
    requires n >= 4
    ensures In(Now(m), m.plan, state, base, n) && Smooth(Now(m), m.plan, state) ==> PrefixValid(state, m.world)
  {
  }

  /** Finish from the start: what is kept is not installed, what is not is. */
  method InstallLine(m: Machine, state: State, ghost base: seq<Boundary>)
    returns (r: Reply<State>, ghost entries: seq<Entry>)
    requires Idle(m.world.runtime) && m.world.patches.targets == PlannedTargets(m.plan)
    modifies m`script, m`durable, m`log, m`world, m`nextId
    ensures Ends(old(Now(m)), Now(m), m.plan, r, entries, state, base, 2) && (r.Done? ==> AllChecked(entries))
    ensures r.Done? ==> Shape(entries) == FinishShape(m.plan)
  {
    hide Stage, In, Smooth, Ends, Shape, RuntimeShape, Calls, PatchShape, AllChecked;
    ghost var a := Now(m);
    ghost var more;
    r, entries := LicensedStage(m, state, !m.plan.keepLicensed, false, base, 2);
    if !r.Done? {
      EndsEarly(a, Now(m), m.plan, r, entries, state, base, 2, 3);
      return;
    }
    var installed := r.value;
    ghost var b := Now(m);
    r, more := RuntimeStage(m, installed, false, base, 3);
    StageOn(a, b, Now(m), m.plan, state, installed, r, entries, more, base, 2, 3, 5);
    ShapeJoins(entries, more);
    entries := entries + more;
    if !r.Done? {
      EndsEarly(a, Now(m), m.plan, r, entries, state, base, 2, 5);
      return;
    }
    var running := r.value;
    ghost var c := Now(m);
    r, more := PatchLine(m, running, base);
    EndsOn(a, c, Now(m), m.plan, state, running, r, entries, more, base, 2, 5);
    ShapeJoins(entries, more);
    CheckedLast(entries, more);
    entries := entries + more;
  }

  /** The second half of it: the patches, and the checks at the end. */
  method PatchLine(m: Machine, state: State, ghost base: seq<Boundary>) returns (r: Reply<State>, ghost entries: seq<Entry>)
    requires m.world.patches.targets == PlannedTargets(m.plan)
    modifies m`script, m`durable, m`log, m`world, m`nextId
    ensures Ends(old(Now(m)), Now(m), m.plan, r, entries, state, base, 5) && (r.Done? ==> AllChecked(entries))
    ensures Checked(Comparison) in entries ==> SnapshotsCompared in m.durable.boundaries
    ensures r.Done? ==> Shape(entries) == PatchShape(m.plan) && PatchNote(m.plan) !in state.boundaries
  {
    hide Stage, In, Smooth, Ends, Shape, Calls;
    ghost var a, more := Now(m), [];
    PrefixHolds(m, state, base, 5);
    r, entries := ValidatePrefix(m, state, base, 5);
    if !r.Done? {
      EndsEarly(a, Now(m), m.plan, r, entries, state, base, 5, 5);
      return;
    }
    ShapeOfCheck(Prefix);
    ghost var b := Now(m);
    r, more := ApplyStage(m, state, false, base, 5);
    StageOn(a, b, Now(m), m.plan, state, state, r, entries, more, base, 5, 5, 6);
    ShapeJoins(entries, more);
    entries := entries + more;
    if !r.Done? {
      EndsEarly(a, Now(m), m.plan, r, entries, state, base, 5, 6);
      return;
    }
    var patched := r.value;
    ghost var c := Now(m);
    PrefixHolds(m, patched, base, 6);
    r, more := ValidatePrefix(m, patched, base, 6);
    StageOn(a, c, Now(m), m.plan, state, patched, r, entries, more, base, 5, 6, 6);
    ShapeJoins(entries, more);
    entries := entries + more;
    if !r.Done? {
      EndsEarly(a, Now(m), m.plan, r, entries, state, base, 5, 6);
      return;
    }
    ghost var d := Now(m);
    r, more := LastStages(m, patched, false, base, 6);
    EndsOn(a, d, Now(m), m.plan, state, patched, r, entries, more, base, 5, 6);
    ChecksLast(entries);
    ShapeJoins(entries, more);
    ShapeOfChecks();
    entries := entries + more;
  }
}

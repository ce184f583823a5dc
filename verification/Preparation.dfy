/** The resumption of Prepare: its snapshot, the tool and the record of it, by processes
    that can die anywhere. */
module Preparation {
  import opened Outcomes
  import opened BootstrapState
  import opened Owners
  import opened FinishLine
  import opened Finish

  predicate Recorded(tool: Tool) {
    !tool.NoRecord?
  }

  function DispositionOf(tool: Tool): Disposition {
    if tool.AdoptedTool? then Adopted else Created
  }

  /** A snapshot that is missing is taken only while nothing was published. */
  predicate Snapshotable(caller: State, world: World, plan: Plan) {
    world.baseline
    || (world.tool.NoRecord? && ToolPublished !in caller.boundaries && (plan.adopts || world.tool.disk == Missing))
  }

  /** The resumption publishes the tool: no record of it, nothing under its name, and a
      plan that found nothing there either. */
  predicate Publishable(caller: State, world: World, plan: Plan) {
    Snapshotable(caller, world, plan) && world.tool == NoRecord(Missing) && !plan.adopts
  }

  /** What a Prepare and its resumptions leave behind when nobody interferes. */
  ghost predicate Preparable(state: State, world: World, plan: Plan) {
    && Unrepeated(state.boundaries) && Snapshotable(state, world, plan)
    && (state.disposition.Some? ==> Recorded(world.tool) && state.disposition.value == DispositionOf(world.tool))
    && if world.tool.NoRecord? then world.tool.disk == Matching || (!plan.adopts && world.tool.disk == Missing)
       else ToolThere(world.tool)
  }

  /** A death in the middle of the publication: its stage is in the way of the next one,
      or the tool is there and no record says whose it is. */
  predicate HalfPublished(world: World, plan: Plan) {
    !plan.adopts && (world.tool == NoRecord(Matching) || (world.tool == NoRecord(Missing) && world.staged))
  }

  // Steps before the transition -----------------------------------------------------------------

  /** What a step under the lease does that commits nothing. */
  ghost predicate Quiet(a: Moment, b: Moment, r: Reply<()>, entries: seq<Entry>) {
    && Ran(a, b, entries) && Marked(a.durable, b.durable) && (Unmarked(a.script) ==> b.durable == a.durable)
    && (r.Killed? ==> |b.script| < |a.script|)
    && b.world == a.world.(tool := b.world.tool, baseline := b.world.baseline, staged := b.world.staged)
  }

  /** What it means for the next attempt: only a publication in the middle makes one fail. */
  ghost predicate Prepares(a: Moment, b: Moment, plan: Plan, caller: State, r: Reply<()>) {
    && (Preparable(caller, a.world, plan) ==> Preparable(caller, b.world, plan))
    && (HalfPublished(a.world, plan) ==> HalfPublished(b.world, plan))
    && (Gentle(a.script) && Preparable(caller, a.world, plan) && r.Failed? ==> HalfPublished(b.world, plan))
    && (Steady(a.script) ==> !r.Killed? && (!HalfPublished(a.world, plan) ==> !HalfPublished(b.world, plan)))
  }

  lemma QuietOn(a: Moment, b: Moment, c: Moment, q: Reply<()>, r: Reply<()>, e: seq<Entry>, f: seq<Entry>)
    requires q.Done? && Quiet(a, b, q, e) && Quiet(b, c, r, f)
    ensures Quiet(a, c, r, e + f) && (e == [] ==> Quiet(a, c, r, f)) && (f == [] ==> Quiet(a, c, r, e))
  {
    hide Ran, Marked, Gentle, Steady;
    RanOn(a, b, c, e, f);
    RanScript(a, b, e);
    RanScript(b, c, f);
    MarkedOn(a.durable, b.durable, c.durable);
    assert e == [] ==> e + f == f;
    assert f == [] ==> e + f == e;
  }

  lemma PreparesOn(a: Moment, b: Moment, c: Moment, plan: Plan, caller: State, q: Reply<()>, r: Reply<()>, e: seq<Entry>)
    requires q.Done? && Quiet(a, b, q, e) && Prepares(a, b, plan, caller, q) && Prepares(b, c, plan, caller, r)
    ensures Prepares(a, c, plan, caller, r)
  {
    hide Marked, Preparable, HalfPublished, Gentle, Steady;
  }

  lemma RanScript(a: Moment, b: Moment, e: seq<Entry>)
    requires Ran(a, b, e)
    ensures Advances(a.script, b.script) && |b.script| <= |a.script|
    ensures Unmarked(a.script) ==> Unmarked(b.script)
    ensures (Gentle(a.script) ==> Gentle(b.script)) && (Steady(a.script) ==> Steady(b.script))
  {
  }

  function Ended(e: Event): Reply<()> {
    if e.Die? then Killed else if e.Fail? then Failed(OwnerFailed) else Done(())
  }

  /** A check, a download, or a file written that nothing depends on. */
  method Pause(m: Machine, what: Check, ghost caller: State) returns (r: Reply<()>, ghost entries: seq<Entry>)
    modifies m`script, m`durable, m`log
    ensures Quiet(old(Now(m)), Now(m), r, entries) && Prepares(old(Now(m)), Now(m), m.plan, caller, r)
    ensures entries == if r.Done? then [Checked(what)] else []
    ensures Steady(old(m.script)) ==> r.Done? && m.durable == old(m.durable) && Steady(m.script)
    ensures r.Failed? ==> r.error == OwnerFailed
  {
    hide Marked, Preparable, Gentle, Steady, Unmarked, HalfPublished, Onward, InTime, Advances;
    ghost var a := Now(m);
    var e := Act(m);
    r := Ended(e);
    entries := if r.Done? then [Checked(what)] else [];
    CheckInTime(a.durable, m.durable, what);
    m.log := m.log + entries;
    assert a.log + [] == a.log;
  }

  lemma CheckInTime(a: State, b: State, what: Check)
    ensures InTime(a, b, [], false) ==> InTime(a, b, [Checked(what)], false)
    ensures InTime(a, b, [], true) ==> InTime(a, b, [Checked(what)], true)
  {
  }

  /** Owners are called only to install the tool. */
  ghost predicate ToolCalls(entries: seq<Entry>) {
    forall e | e in entries :: e.Checked? || (e.Install? && e.installed == ToolOwner)
  }

  /** What a completed Prepare has done: the plan, the bundle, the tool, and the summary. */
  ghost function PrepareShape(publishes: bool): seq<Entry> {
    [Checked(PreparePlan), Checked(Bundle)]
    + (if publishes then [Checked(BaseTool), Install(ToolOwner, New)] else [Checked(ToolLook)])
    + [Checked(Summary)]
  }

  /** The snapshot of what was there before: taken when it is missing. */
  method TakeSnapshot(m: Machine, caller: State) returns (r: Reply<()>)
    modifies m`script, m`durable, m`world
    ensures Quiet(old(Now(m)), Now(m), r, []) && Prepares(old(Now(m)), Now(m), m.plan, caller, r)
    ensures var taken := old(Snapshotable(caller, m.world, m.plan)) && EffectOf(Upcoming(old(m.script))) == All;
      m.world == old(m.world).(baseline := old(m.world.baseline) || taken)
    ensures r.Done? ==> m.world.baseline && old(Snapshotable(caller, m.world, m.plan))
    ensures Steady(old(m.script)) && old(Snapshotable(caller, m.world, m.plan)) ==>
      r.Done? && m.durable == old(m.durable) && Steady(m.script)
    ensures r.Failed? ==> r.error == if Snapshotable(caller, old(m.world), m.plan) then OwnerFailed else Ambiguous(ToolOwner)
  {
    hide Ran, Marked, Gentle, Steady, Unmarked;
    ghost var world := m.world;
    var e := Act(m);
    if !e.Die? && !Snapshotable(caller, m.world, m.plan) {
      return Failed(Ambiguous(ToolOwner));
    }
    r := Ended(e);
    if Snapshotable(caller, m.world, m.plan) && TakesEffect(e) {
      ghost var acted := Now(m);
      m.world := m.world.(baseline := true);
      RanWorld(old(Now(m)), acted, m.world, []);
    }
  }

  /** Publish the tool: it is staged, and renamed to its name.  A stage in the way is an error. */
  method PublishTool(m: Machine, caller: State) returns (r: Reply<()>, ghost entries: seq<Entry>)
    requires m.world.tool == NoRecord(Missing) && m.world.baseline && !m.plan.adopts
    modifies m`script, m`durable, m`world, m`log
    ensures Quiet(old(Now(m)), Now(m), r, entries) && entries == [Install(ToolOwner, old(m.durable.phase))]
    ensures old(Preparable(caller, m.world, m.plan)) ==> Preparable(caller, m.world, m.plan)
    ensures m.world.baseline && (r.Done? ==> m.world.tool == NoRecord(Matching))
    ensures old(m.world.staged) ==> !r.Done? && m.world == old(m.world)
    ensures !old(m.world.staged) ==>
      m.world == match EffectOf(Upcoming(old(m.script)))
                 case All => old(m.world).(tool := NoRecord(Matching))
                 case Part => old(m.world).(staged := true)
                 case Nothing => old(m.world)
    ensures Gentle(old(m.script)) && r.Failed? ==> old(m.world.staged)
    ensures Steady(old(m.script)) ==> !r.Killed? && (!old(m.world.staged) ==> r.Done?)
    ensures r.Failed? ==> r.error == OwnerFailed
  {
    hide Ran, Marked, Gentle, Steady, Unmarked;
    var e;
    e, entries := Call(m, ToolOwner);
    ghost var called := Now(m);
    if m.world.staged {
      r := if e.Die? then Killed else Failed(OwnerFailed);
    } else {
      if TakesEffect(e) {
        m.world := m.world.(tool := NoRecord(Matching));
      } else if InPart(e) {
        m.world := m.world.(staged := true);
      }
      r := Ended(e);
    }
    RanWorld(old(Now(m)), called, m.world, entries);
  }

  /** Write the record of the tool. */
  method RecordTool(m: Machine, caller: State, tool: Tool) returns (r: Reply<()>)
    requires m.world.tool == NoRecord(Matching) && m.world.baseline
    requires tool == if m.plan.adopts then AdoptedTool(true) else CreatedTool(Intact)
    modifies m`script, m`durable, m`world
    ensures Quiet(old(Now(m)), Now(m), r, [])
    ensures old(Preparable(caller, m.world, m.plan)) ==> Preparable(caller, m.world, m.plan)
    ensures m.world == if EffectOf(Upcoming(old(m.script))) == All then old(m.world).(tool := tool) else old(m.world)
    ensures r.Done? ==> m.world.tool == tool
    ensures (Gentle(old(m.script)) ==> !r.Failed?) && (Steady(old(m.script)) ==> r.Done?)
    ensures r.Failed? ==> r.error == OwnerFailed
  {
    hide Ran, Marked, Gentle, Steady, Unmarked;
    var e := Act(m);
    ghost var acted := Now(m);
    if TakesEffect(e) {
      m.world := m.world.(tool := tool);
    }
    r := Ended(e);
    RanWorld(old(Now(m)), acted, m.world, []);
    SteadyUnmarked(old(m.script));
  }

  /** Download the base of the tool, publish it and record it. */
  method CreateTool(m: Machine, caller: State) returns (r: Reply<()>, ghost entries: seq<Entry>)
    requires m.world.tool == NoRecord(Missing) && m.world.baseline && !m.plan.adopts
    modifies m`script, m`durable, m`world, m`log
    ensures Quiet(old(Now(m)), Now(m), r, entries) && Prepares(old(Now(m)), Now(m), m.plan, caller, r)
    ensures ToolCalls(entries)
    ensures m.world.baseline && (r.Done? ==> m.world.tool == CreatedTool(Intact))
    ensures r.Done? ==> Shape(entries) == [Checked(BaseTool), Install(ToolOwner, New)]
    ensures Steady(old(m.script)) ==> entries == [Checked(BaseTool), Install(ToolOwner, old(m.durable.phase))]
    ensures r.Failed? ==> r.error == OwnerFailed
  {
    hide Quiet, Preparable, Gentle, Steady, Unmarked;
    ghost var a, more := Now(m), [];
    var downloaded;
    downloaded, entries := Pause(m, BaseTool, caller);
    if !downloaded.Done? {
      return downloaded, entries;
    }
    ghost var b := Now(m);
    QuietScript(a, b, downloaded, entries);
    var published;
    published, more := PublishTool(m, caller);
    QuietOn(a, b, Now(m), downloaded, published, entries, more);
    entries := entries + more;
    if !published.Done? {
      return published, entries;
    }
    ghost var c := Now(m);
    QuietScript(a, c, published, entries);
    r := RecordTool(m, caller, CreatedTool(Intact));
    QuietOn(a, c, Now(m), published, r, entries, []);
  }

  lemma QuietScript(a: Moment, b: Moment, r: Reply<()>, e: seq<Entry>)
    requires Quiet(a, b, r, e)
    ensures Gentle(a.script) ==> Gentle(b.script)
    ensures Steady(a.script) ==> Steady(b.script)
  {
  }

  /** The tool: the one of the record must be there; without a record the one that the plan
      adopts is recorded, and one that the plan did not find is created. */
  method ToolStep(m: Machine, caller: State) returns (r: Reply<()>, ghost entries: seq<Entry>)
    requires m.world.baseline
    modifies m`script, m`durable, m`world, m`log
    ensures Quiet(old(Now(m)), Now(m), r, entries) && Prepares(old(Now(m)), Now(m), m.plan, caller, r)
    ensures ToolCalls(entries)
    ensures !OnlyChecks(entries) ==> old(Publishable(caller, m.world, m.plan))
    ensures r.Done? ==>
      Shape(entries) == if old(Publishable(caller, m.world, m.plan)) then [Checked(BaseTool), Install(ToolOwner, New)]
                        else [Checked(ToolLook)]
    ensures Steady(old(m.script)) && old(Publishable(caller, m.world, m.plan)) ==>
      entries == [Checked(BaseTool), Install(ToolOwner, old(m.durable.phase))]
    ensures m.world.baseline && (r.Done? ==> Recorded(m.world.tool) && ToolThere(m.world.tool))
    ensures r.Failed? ==> r.error in {OwnerFailed, Ambiguous(ToolOwner)}
  {
    hide Quiet, Ran, Gentle, Steady, Unmarked;
    ghost var a := Now(m);
    var tool := m.world.tool;
    if tool == NoRecord(Missing) && !m.plan.adopts {
      r, entries := CreateTool(m, caller);
      return;
    }
    r, entries := Pause(m, ToolLook, caller);
    if !r.Done? {
      return;
    }
    ghost var b, paused := Now(m), r;
    QuietScript(a, b, paused, entries);
    if tool == NoRecord(Matching) && m.plan.adopts {
      r := RecordTool(m, caller, AdoptedTool(true));
      QuietOn(a, b, Now(m), paused, r, entries, []);
    } else if !(Recorded(tool) && ToolThere(tool)) {
      r := Failed(Ambiguous(ToolOwner));
      QuietFails(a, b, paused, r, entries);
    }
  }

  lemma QuietFails(a: Moment, b: Moment, q: Reply<()>, r: Reply<()>, e: seq<Entry>)
    requires q.Done? && Quiet(a, b, q, e) && r.Failed?
    ensures Quiet(a, b, r, e)
  {
  }

  // The whole resumption -------------------------------------------------------------------------

  function PreparedUpdate(caller: State, tool: Tool): Update {
    NOTHING.(boundaries := Some(if AwaitingPrefix in caller.boundaries then caller.boundaries
                                else caller.boundaries + [AwaitingPrefix]),
             disposition := Some(Some(DispositionOf(tool))))
  }

  /** The state that Prepare ends with. */
  function AfterPrepare(caller: State, tool: Tool): State {
    Changed(caller, AwaitingSteamPrefix, PreparedUpdate(caller, tool))
  }

  /** The phase, the boundary once, and whose the tool is; all else stays. */
  ghost predicate PreparedFrom(before: State, after: State, tool: Tool) {
    && after == before.(phase := AwaitingSteamPrefix, boundaries := after.boundaries, disposition := after.disposition)
    && after.boundaries ==
         (if AwaitingPrefix in before.boundaries then before.boundaries else before.boundaries + [AwaitingPrefix])
    && after.disposition == Some(match tool case AdoptedTool(_) => Adopted case _ => Created)
  }

  lemma AfterPrepareMeans(before: State, tool: Tool)
    ensures PreparedFrom(before, AfterPrepare(before, tool), tool)
  {
  }

  lemma PreparedNext(caller: State, world: World, plan: Plan)
    requires caller.phase == Preparing
    ensures var r := Transitioned(caller, caller, Preparing, AwaitingSteamPrefix, PreparedUpdate(caller, world.tool));
      && (r.Ok? ==> r.value == AfterPrepare(caller, world.tool))
      && (Preparable(caller, world, plan) && Recorded(world.tool) ==> r.Ok?)
  {
  }

  /** All that comes before the transition. */
  method PrepareOwners(m: Machine, caller: State) returns (r: Reply<()>, ghost entries: seq<Entry>)
    modifies m`script, m`durable, m`world, m`log
    ensures Quiet(old(Now(m)), Now(m), r, entries) && Prepares(old(Now(m)), Now(m), m.plan, caller, r)
    ensures ToolCalls(entries)
    ensures !OnlyChecks(entries) ==> old(Publishable(caller, m.world, m.plan))
    ensures r.Done? ==> Shape(entries) == PrepareShape(old(Publishable(caller, m.world, m.plan)))
    ensures Steady(old(m.script)) ==> |entries| > 0 && entries[0] == Checked(PreparePlan)
    ensures Steady(old(m.script)) && old(Publishable(caller, m.world, m.plan)) ==>
      |entries| > 3 && entries[3] == Install(ToolOwner, old(m.durable.phase))
    ensures r.Done? ==> m.world.baseline && Recorded(m.world.tool) && ToolThere(m.world.tool)
  {
    hide Quiet, Prepares, Gentle, Steady, Snapshotable, Recorded, ToolThere, Shape;
    ShapeOfCheck(PreparePlan);
    ShapeOfCheck(Bundle);
    ShapeOfCheck(Summary);
    ghost var a, more := Now(m), [];
    ghost var p, q: Reply<()>, b;
    r, entries := Pause(m, PreparePlan, caller);
    if !r.Done? {
      return;
    }
    p, b := r, Now(m);
    QuietScript(a, b, p, entries);
    r := TakeSnapshot(m, caller);
    QuietOn(a, b, Now(m), p, r, entries, []);
    PreparesOn(a, b, Now(m), m.plan, caller, p, r, entries);
    if !r.Done? {
      return;
    }
    p, b := r, Now(m);
    QuietScript(a, b, p, entries);
    r, more := Pause(m, Bundle, caller);
    QuietOn(a, b, Now(m), p, r, entries, more);
    PreparesOn(a, b, Now(m), m.plan, caller, p, r, entries);
    ShapeJoins(entries, more);
    entries := entries + more;
    if !r.Done? {
      return;
    }
    p, b := r, Now(m);
    QuietScript(a, b, p, entries);
    SnapshotHeld(caller, a.world, b.world, m.plan);
    r, more := ToolStep(m, caller);
    QuietOn(a, b, Now(m), p, r, entries, more);
    PreparesOn(a, b, Now(m), m.plan, caller, p, r, entries);
    ShapeJoins(entries, more);
    entries := entries + more;
    if !r.Done? {
      return;
    }
    p, b := r, Now(m);
    r, more := Pause(m, Summary, caller);
    QuietOn(a, b, Now(m), p, r, entries, more);
    PreparesOn(a, b, Now(m), m.plan, caller, p, r, entries);
    ShapeJoins(entries, more);
    entries := entries + more;
  }

  lemma SnapshotHeld(caller: State, before: World, after: World, plan: Plan)
    requires Snapshotable(caller, before, plan) && after == before.(baseline := true)
    ensures Publishable(caller, before, plan) <==> Publishable(caller, after, plan)
  {
  }

  /** Resume a Prepare, under the lease, with the copy that was read before it.  The copy is
      not compared again before the tool is published. */
  method ResumePrepare(m: Machine, caller: State) returns (r: Reply<State>, ghost entries: seq<Entry>)
    requires caller.phase == Preparing
    modifies m`script, m`durable, m`world, m`log
    ensures Ran(old(Now(m)), Now(m), entries) && (r.Killed? ==> |m.script| < |old(m.script)|)
    ensures OthersStay(old(m.world), m.world)
    ensures ToolCalls(entries) && (!OnlyChecks(entries) ==> old(Publishable(caller, m.world, m.plan)))
    ensures Steady(old(m.script)) ==> |entries| > 0 && entries[0] == Checked(PreparePlan)
    ensures Steady(old(m.script)) && old(Publishable(caller, m.world, m.plan)) ==>
      |entries| > 3 && entries[3] == Install(ToolOwner, old(m.durable.phase))
    ensures r.Done? ==> Shape(entries) == PrepareShape(old(Publishable(caller, m.world, m.plan)))
    ensures r.Done? ==>
      && r.value == m.durable == AfterPrepare(caller, m.world.tool)
      && PreparedFrom(caller, r.value, m.world.tool)
      && m.world.baseline && Recorded(m.world.tool) && ToolThere(m.world.tool)
    ensures Gentle(old(m.script)) && old(m.durable == caller && Preparable(caller, m.world, m.plan)) ==>
      && Preparable(caller, m.world, m.plan)
      && (old(HalfPublished(m.world, m.plan)) ==> HalfPublished(m.world, m.plan))
      && (r.Failed? ==> m.durable == caller && HalfPublished(m.world, m.plan))
      && (r.Killed? ==> m.durable == caller
                        || (m.durable == AfterPrepare(caller, m.world.tool) && Recorded(m.world.tool) && m.world.baseline))
    ensures Steady(old(m.script)) && old(m.durable == caller && Preparable(caller, m.world, m.plan)) ==>
      (r.Done? <==> !old(HalfPublished(m.world, m.plan)))
  {
    hide PreparedFrom, Shape, PrepareShape, ToolCalls, OnlyChecks;
    hide Marked, Ran, Gentle, Steady, Unmarked, Transitioned, PreparedUpdate, AfterPrepare, Snapshotable, Preparable;
    ghost var a := Now(m);
    var owners;
    owners, entries := PrepareOwners(m, caller);
    GentleUnmarked(m.script);
    GentleUnmarked(a.script);
    QuietScript(a, Now(m), owners, entries);
    if !owners.Done? {
      return owners.PropagateFailure(), entries;
    }
    ghost var b := Now(m);
    PreparedNext(caller, m.world, m.plan);
    AfterPrepareMeans(caller, m.world.tool);
    r := CommitPrepared(m, caller);
    RanOn(a, b, Now(m), entries, []);
    RanShorter(a, b, entries);
    assert entries + [] == entries;
  }

  method CommitPrepared(m: Machine, caller: State) returns (r: Reply<State>)
    requires caller.phase == Preparing
    modifies m`script, m`durable
    ensures Ran(old(Now(m)), Now(m), []) && (r.Killed? ==> |m.script| < |old(m.script)|)
    ensures r.Done? ==> r.value == m.durable == AfterPrepare(caller, m.world.tool)
    ensures Gentle(old(m.script)) && old(m.durable == caller && Preparable(caller, m.world, m.plan))
            && Recorded(m.world.tool) ==>
      !r.Failed? && (r.Killed? ==> m.durable == caller || m.durable == AfterPrepare(caller, m.world.tool))
    ensures Steady(old(m.script)) && old(m.durable == caller && Preparable(caller, m.world, m.plan))
            && Recorded(m.world.tool) ==>
      r.Done?
  {
    hide Transitioned, AfterPrepare, PreparedUpdate, Gentle, Steady, Unmarked, InTime, Preparable, Onward;
    ghost var before, script := m.durable, m.script;
    GentleUnmarked(script);
    PreparedNext(caller, m.world, m.plan);
    TransitionPhase(caller, AwaitingSteamPrefix, PreparedUpdate(caller, m.world.tool));
    PreparedBoundaries(caller, m.world.tool);
    r := m.Commit(caller, AwaitingSteamPrefix, PreparedUpdate(caller, m.world.tool));
    if Marked(before, m.durable) {
      MarkedInTime(before, m.durable);
    } else {
      CommittedInTime(before, m.durable, AwaitingSteamPrefix);
      CommittedOnward(before, caller, AwaitingSteamPrefix, PreparedUpdate(caller, m.world.tool), m.durable);
    }
    assert m.log == old(m.log) + [];
  }

  lemma PreparedBoundaries(caller: State, tool: Tool)
    ensures var added := PreparedUpdate(caller, tool).boundaries;
      added.Some? && (AllRolledBack in added.value ==> AllRolledBack in caller.boundaries)
  {
  }

  // Attempts -----------------------------------------------------------------------------------------

  /** A Prepare that is killed any number of times, anywhere, and resumed each time: it ends with
      its tool recorded and in place, unless it died in the middle of the publication. */
  method PrepareUntilAwaiting(m: Machine) returns (r: Reply<State>)
    requires m.durable.phase == Preparing && Preparable(m.durable, m.world, m.plan) && Gentle(m.script)
    modifies m`script, m`durable, m`world, m`log
    ensures !r.Killed? && (r.Done? <==> !HalfPublished(m.world, m.plan))
    ensures old(HalfPublished(m.world, m.plan)) ==> r.Failed?
    ensures Gentle(m.script) && OthersStay(old(m.world), m.world)
    ensures r.Done? ==>
      && r.value == m.durable == AfterPrepare(old(m.durable), m.world.tool)
      && m.world.baseline && Recorded(m.world.tool) && ToolThere(m.world.tool)
    ensures r.Failed? ==> m.durable == old(m.durable).(phase := RecoveryRequired)
  {
    ghost var start := m.durable;
    hide Preparable, Gentle, HalfPublished, Recorded, ToolThere, AfterPrepare;
    r := Killed;
    while r.Killed?
      invariant Gentle(m.script) && Prepping(start, m.durable, m.world, m.plan) && OthersStay(old(m.world), m.world)
      invariant old(HalfPublished(m.world, m.plan)) ==> HalfPublished(m.world, m.plan)
      invariant r.Done? ==> r.value == m.durable && m.durable.phase == AwaitingSteamPrefix
      invariant r.Failed? ==> m.durable.phase == RecoveryRequired
      decreases |m.script|, r.Killed?
    {
      r := PrepareOn(m, start);
    }
  }

  /** Prepare has to do with the tool only. */
  ghost predicate OthersStay(before: World, after: World) {
    after == before.(tool := after.tool, baseline := after.baseline, staged := after.staged)
  }

  /** A moment between two attempts. */
  ghost predicate Prepping(start: State, durable: State, world: World, plan: Plan) {
    || (durable == start && Preparable(start, world, plan))
    || (durable == start.(phase := RecoveryRequired) && HalfPublished(world, plan))
    || (durable == AfterPrepare(start, world.tool) && Recorded(world.tool) && ToolThere(world.tool) && world.baseline)
  }

  /** What the user does after a kill. */
  method PrepareOn(m: Machine, ghost start: State) returns (r: Reply<State>)
    requires start.phase == Preparing && Gentle(m.script) && Prepping(start, m.durable, m.world, m.plan)
    modifies m`script, m`durable, m`world, m`log
    ensures Gentle(m.script) && Prepping(start, m.durable, m.world, m.plan) && OthersStay(old(m.world), m.world)
    ensures |m.script| <= |old(m.script)| && (r.Killed? ==> |m.script| < |old(m.script)|)
    ensures old(HalfPublished(m.world, m.plan)) ==> HalfPublished(m.world, m.plan)
    ensures r.Done? ==> r.value == m.durable && m.durable.phase == AwaitingSteamPrefix
    ensures r.Failed? ==> m.durable.phase == RecoveryRequired
    ensures old(m.durable.phase) == RecoveryRequired ==> r == Failed(WrongPhase)
  {
    hide Preparable, Gentle, Ran, Recorded;
    ghost var a := Now(m);
    var caller := m.durable;
    if caller.phase == AwaitingSteamPrefix {
      r := Done(caller);
    } else if caller.phase == RecoveryRequired {
      r := Failed(WrongPhase);
    } else {
      ghost var entries;
      r, entries := ResumePrepare(m, caller);
      RanScript(a, Now(m), entries);
      PreparableMeans(start, m.world, m.plan);
      if r.Failed? {
        ghost var script := m.script;
        var killed := RequireRecovery(m);
        AdvancesGentle(script, m.script);
        r := if killed then Killed else r;
      }
    }
  }

  lemma PreparableMeans(state: State, world: World, plan: Plan)
    requires Preparable(state, world, plan)
    ensures Unrepeated(state.boundaries) && (Recorded(world.tool) ==> ToolThere(world.tool))
  {
  }
}

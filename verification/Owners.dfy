/** The four owners that Finish installs and Rollback withdraws, as far as the
    coordinator can see them, and the machine that they share with its state. */
module Owners {
  import opened Outcomes
  import opened BootstrapState

  datatype Owner = PatchOwner | RuntimeOwner | ThreadingOwner | ToolOwner

  /** The order in which rollback goes through the owners. */
  const ORDER: seq<Owner> := [PatchOwner, RuntimeOwner, ThreadingOwner, ToolOwner]

  /** The status in the journal of the licensed file. */
  datatype Licensed = NoJournal | Planned | Installed | LicensedRolledBack | LicensedRecovery

  /** The status in the journal of a child of the runtime; a bare one has no journal yet. */
  datatype ChildStatus = Bare | Unfinished | ChildInstalled | Restored | ChildRolledBack | ChildAccepted | ChildRecovery

  datatype Runtime = NoChild | Child(id: Id, status: ChildStatus)

  /** Mixed are targets that were left in the middle: some of them patched, or all of
      them and no manifest written. */
  datatype Targets = Original | Patched | Mixed

  /** The four patched files, and the backup manifest that was written for them. */
  datatype Patches = Patches(targets: Targets, backup: Option<nat>)

  /** The record of the tool, and what is under its name. */
  datatype Tool = NoRecord(disk: Disk) | AdoptedTool(intact: bool) | CreatedTool(presence: Presence)

  datatype Disk = Missing | Matching | Foreign

  datatype Presence = Gone | Intact | Altered

  /** The owners; whether the snapshot of Prepare is there, and a stage of the tool that a
      publication left. */
  datatype World = World(licensed: Licensed, runtime: Runtime, patches: Patches, tool: Tool, baseline: bool, staged: bool)

  /** Whether Prepare found its tool there, and what Finish decided to leave alone. */
  datatype Plan = Plan(digest: Digest, adopts: bool, keepLicensed: bool, keepRuntime: bool, keepPatches: bool)

  datatype Status = Pending | RolledBackStatus | NotApplicable | AcceptedStatus

  datatype CoordinatorError =
    | Refused(reason: StateError)
    | StaleCopy
    | OwnerFailed
    | Ambiguous(owner: Owner)
    | WrongPhase
    | AlreadyAccepted
    | UnexpectedChanges
    | LockHeld

  type Reply<+T> = Outcome<T, CoordinatorError>

  // What rollback sees of the owners ---------------------------------------------------------------

  /** A manifest that the state names is taken for there without a look. */
  function BackupPath(state: State, patches: Patches): Option<nat> {
    if state.backup.Some? then state.backup else patches.backup
  }

  function PatchStatus(state: State, patches: Patches, plan: Plan): Result<Status, CoordinatorError> {
    if state.backup.None? && state.plan.None? then Ok(NotApplicable)
    else match patches.targets
      case Original =>
        if plan.keepPatches || BackupPath(state, patches).Some? then Err(Ambiguous(PatchOwner)) else Ok(RolledBackStatus)
      case Mixed => Err(Ambiguous(PatchOwner))
      case Patched =>
        if plan.keepPatches then
          if BackupPath(state, patches).Some? then Err(Ambiguous(PatchOwner)) else Ok(NotApplicable)
        else if BackupPath(state, patches).None? then Err(Ambiguous(PatchOwner)) else Ok(Pending)
  }

  predicate TerminalChild(status: ChildStatus) {
    status in {Restored, ChildRolledBack, ChildAccepted}
  }

  /** No child of the runtime is unfinished. */
  predicate Idle(runtime: Runtime) {
    runtime.NoChild? || TerminalChild(runtime.status)
  }

  /** The child of this transaction: by name, or the unfinished one with its plan. */
  function RuntimeId(state: State, runtime: Runtime): Option<Id> {
    if state.child.Some? then state.child
    else if state.plan.None? then None
    else match runtime
      case Child(id, status) => if TerminalChild(status) then None else Some(id)
      case NoChild => None
  }

  function RuntimeStatus(state: State, runtime: Runtime): Result<Status, CoordinatorError> {
    var id := RuntimeId(state, runtime);
    if id.None? then Ok(NotApplicable)
    else if runtime.NoChild? || runtime.id != id.value then Err(Ambiguous(RuntimeOwner))
    else match runtime.status
      case ChildRolledBack => Ok(RolledBackStatus)
      case ChildRecovery => Err(Ambiguous(RuntimeOwner))
      case Bare => Err(Ambiguous(RuntimeOwner))
      case ChildAccepted => Ok(AcceptedStatus)
      case _ => Ok(Pending)
  }

  function ThreadingStatus(licensed: Licensed): Result<Status, CoordinatorError> {
    match licensed
    case NoJournal => Ok(NotApplicable)
    case LicensedRolledBack => Ok(RolledBackStatus)
    case LicensedRecovery => Err(Ambiguous(ThreadingOwner))
    case _ => Ok(Pending)
  }

  function ToolStatus(state: State, tool: Tool): Result<Status, CoordinatorError> {
    match tool
    case NoRecord(_) => if state.disposition.None? then Ok(NotApplicable) else Err(Ambiguous(ToolOwner))
    case AdoptedTool(intact) => if intact then Ok(NotApplicable) else Err(Ambiguous(ToolOwner))
    case CreatedTool(Gone) => Ok(RolledBackStatus)
    case CreatedTool(Intact) => Ok(Pending)
    case CreatedTool(Altered) => Err(Ambiguous(ToolOwner))
  }

  /** The tool under its name is the one that the release describes. */
  predicate ToolThere(tool: Tool) {
    match tool
    case NoRecord(disk) => disk == Matching
    case AdoptedTool(intact) => intact
    case CreatedTool(presence) => presence == Intact
  }

  function StatusOf(owner: Owner, state: State, world: World, plan: Plan): Result<Status, CoordinatorError> {
    match owner
    case PatchOwner => PatchStatus(state, world.patches, plan)
    case RuntimeOwner => RuntimeStatus(state, world.runtime)
    case ThreadingOwner => ThreadingStatus(world.licensed)
    case ToolOwner => ToolStatus(state, world.tool)
  }

  predicate Settled(owner: Owner, state: State, world: World, plan: Plan) {
    StatusOf(owner, state, world, plan) in {Ok(RolledBackStatus), Ok(NotApplicable)}
  }

  /** Only the child, the backup, the disposition and the plan of a state matter to the owners. */
  ghost predicate SameOwners(a: State, b: State) {
    a.child == b.child && a.backup == b.backup && a.disposition == b.disposition && a.plan == b.plan
  }

  lemma SameStatus(owner: Owner, a: State, b: State, world: World, plan: Plan)
    requires SameOwners(a, b)
    ensures StatusOf(owner, a, world, plan) == StatusOf(owner, b, world, plan)
  {
  }

  /** The last boundary of all is there only when everything is over. */
  ghost predicate Sane(state: State) {
    Unrepeated(state.boundaries) && (AllRolledBack in state.boundaries ==> state.phase == RolledBack)
  }

  // The environment ------------------------------------------------------------------------------------

  datatype Effect = Nothing | Part | All

  /** What happens at one step: it succeeds; the process dies, or the step fails, and
      has taken effect so far or not; or another process marks the transaction first. */
  datatype Event = Go | Die(effect: Effect) | Fail(effect: Effect) | Mark

  ghost predicate Steady(script: seq<Event>) {
    forall e | e in script :: e == Go
  }

  /** Nothing fails, and nobody interferes; processes die anywhere, in the middle of an
      owner's action as well. */
  ghost predicate Gentle(script: seq<Event>) {
    forall e | e in script :: e == Go || e.Die?
  }

  ghost predicate Unmarked(script: seq<Event>) {
    Mark !in script
  }

  /** The next step: what others mark is not one. */
  ghost function Upcoming(script: seq<Event>): Event {
    if script == [] then Go else if script[0].Mark? then Upcoming(script[1..]) else script[0]
  }

  /** How much of the next step takes effect. */
  ghost function EffectOf(e: Event): Effect {
    match e
    case Die(effect) => effect
    case Fail(effect) => effect
    case _ => All
  }

  ghost predicate Advances(before: seq<Event>, after: seq<Event>) {
    && |after| <= |before|
    && (Steady(before) ==> Steady(after))
    && (Gentle(before) ==> Gentle(after))
    && (Unmarked(before) ==> Unmarked(after))
  }

  lemma AdvancesOn(a: seq<Event>, b: seq<Event>, c: seq<Event>)
    requires Advances(a, b) && Advances(b, c)
    ensures Advances(a, c)
  {
  }

  lemma SelfAdvances(script: seq<Event>)
    ensures Advances(script, script)
  {
  }

  lemma GentleUnmarked(script: seq<Event>)
    ensures Gentle(script) ==> Unmarked(script)
    ensures Steady(script) ==> Gentle(script)
  {
  }

  /** A process that gets the lease, with the state it has read at any time before. */
  datatype Session =
    | RunFinish(copy: State)
    | RunResume(copy: State)
    | RunRollback(copy: State, confirmed: bool)

  /** What a process looks at, or makes sure of. */
  datatype Check =
    | Inputs | Prefix | LicensedPlan | RuntimeChildren | RuntimeAnswer | PatchTargets
    | Doctor | AfterFinish | Comparison | LaunchOptions
    | PreparePlan | Bundle | ToolLook | BaseTool | Summary

  /** What is remembered of a run: sessions with what they began with, installs with the
      phase they were called in, looks at owners, withdrawals with what the owners' statuses
      were, and passed checks. */
  datatype Entry =
    | Began(session: Session, state: State, world: World)
    | Install(installed: Owner, phase: Phase)
    | Look(looked: Owner, status: Result<Status, CoordinatorError>)
    | Undo(undone: Owner, state: State, world: World)
    | Checked(what: Check)

  /** Another process gave up on the transaction, without the lease. */
  ghost predicate Marked(before: State, after: State) {
    after == before || (!Terminal(before.phase) && after == before.(phase := RecoveryRequired))
  }

  lemma MarkedOn(a: State, b: State, c: State)
    requires Marked(a, b) && Marked(b, c)
    ensures Marked(a, c)
  {
  }

  /** Legal steps lead from one sane state to another. */
  ghost predicate Onward(before: State, after: State) {
    Sane(before) ==> Sane(after) && Reaches(before, after)
  }

  lemma OnwardOn(a: State, b: State, c: State)
    requires Onward(a, b) && Onward(b, c)
    ensures Onward(a, c)
  {
    hide Sane, Reaches;
    if Sane(a) {
      ReachesOn(a, b, c);
    }
  }

  lemma MarkedOnward(before: State, after: State)
    requires Marked(before, after)
    ensures Onward(before, after)
  {
    hide Reaches;
    if Sane(before) {
      if before == after {
        ReachesSelf(before);
      } else {
        ReachesStep(before, after);
      }
    }
  }

  /** A transition of a caller whose copy is the durable state, or was before it was marked. */
  lemma CommittedOnward(before: State, caller: State, target: Phase, update: Update, after: State)
    requires Marked(before, caller) && Transitioned(caller, caller, caller.phase, target, update) == Ok(after)
    requires Sane(caller) ==> Sane(after)
    ensures Onward(before, after)
  {
    hide Reaches, Sane, Transitioned, Marked, Follows;
    TransitionFollows(caller, caller, caller.phase, target, update);
    MarkedOnward(before, caller);
    if Sane(before) {
      ReachesStep(caller, after);
      ReachesOn(before, caller, after);
    }
  }

  class Machine {
    var durable: State
    var world: World
    var script: seq<Event>
    var nextId: nat
    ghost var log: seq<Entry>
    const plan: Plan

    constructor (durable: State, world: World, script: seq<Event>, plan: Plan, nextId: nat)
      ensures this.durable == durable && this.world == world && this.script == script && this.plan == plan
      ensures log == []
    {
      this.durable, this.world, this.script, this.plan, this.nextId := durable, world, script, plan, nextId;
      log := [];
    }

    /** What happens at the next step. */
    method Next() returns (e: Event)
      modifies `script, `durable
      ensures Advances(old(script), script)
      ensures Marked(old(durable), durable) && (Unmarked(old(script)) ==> durable == old(durable))
      ensures !e.Mark? && e == Upcoming(old(script)) && (Steady(old(script)) ==> e == Go)
      ensures Gentle(old(script)) ==> !e.Fail?
      ensures old(script) != [] && old(script)[0].Mark? && !Terminal(old(durable.phase)) ==>
        durable == old(durable).(phase := RecoveryRequired)
      ensures e.Die? || e.Fail? ==> |script| < |old(script)|
    {
      while script != []
        invariant Advances(old(script), script)
        invariant Marked(old(durable), durable) && (Unmarked(old(script)) ==> durable == old(durable))
        invariant Upcoming(script) == Upcoming(old(script)) && (|script| == |old(script)| ==> script == old(script))
        invariant |script| < |old(script)| && old(script)[0].Mark? && !Terminal(old(durable.phase)) ==>
          durable == old(durable).(phase := RecoveryRequired)
        decreases |script|
      {
        e := script[0];
        ghost var before := script;
        script := script[1..];
        assert forall x | x in script :: x in before;
        assert e in before;
        if e.Mark? {
          if Allowed(durable.phase, RecoveryRequired) {
            durable := durable.(phase := RecoveryRequired);
          }
        } else {
          return;
        }
      }
      e := Go;
    }

    /** A step of which nothing is recorded: a check, or a file written for the records. */
    method Check() returns (r: Reply<()>)
      modifies `script, `durable
      ensures Advances(old(script), script)
      ensures Marked(old(durable), durable) && (Unmarked(old(script)) ==> durable == old(durable))
      ensures (Steady(old(script)) ==> r.Done?) && (Gentle(old(script)) ==> !r.Failed?)
      ensures r.Done? <==> Upcoming(old(script)) == Go
      ensures r.Killed? <==> Upcoming(old(script)).Die?
      ensures r.Failed? ==> r.error == OwnerFailed
      ensures !r.Done? ==> |script| < |old(script)|
    {
      var e := Next();
      r := if e.Die? then Killed else if e.Fail? then Failed(OwnerFailed) else Done(());
    }

    /** A transition of the durable state. */
    method Commit(caller: State, target: Phase, update: Update) returns (r: Reply<State>)
      modifies `script, `durable
      ensures Advances(old(script), script)
      ensures Marked(old(durable), durable)
              || (Marked(old(durable), caller) && Transitioned(caller, caller, caller.phase, target, update) == Ok(durable))
      ensures Unmarked(old(script)) ==>
        durable == old(durable)
        || (old(durable) == caller && Transitioned(caller, caller, caller.phase, target, update) == Ok(durable))
      ensures r.Done? ==>
        && Transitioned(caller, caller, caller.phase, target, update) == Ok(r.value) && durable == r.value
        && Marked(old(durable), caller)
      ensures Unmarked(old(script)) && r.Done? ==> old(durable) == caller
      ensures r.Failed? ==> Marked(old(durable), durable)
      ensures Unmarked(old(script)) && r.Failed? ==> durable == old(durable)
      ensures r.Failed? ==> r.error == OwnerFailed || r.error.Refused?
      ensures Steady(old(script)) ==>
        if old(durable) == caller && Transitioned(caller, caller, caller.phase, target, update).Ok?
        then r.Done? else r.Failed? && durable == old(durable)
      ensures Gentle(old(script)) && old(durable) == caller && Transitioned(caller, caller, caller.phase, target, update).Ok? ==>
        !r.Failed?
      ensures Unmarked(old(script)) && old(durable) == caller && Transitioned(caller, caller, caller.phase, target, update).Ok? ==>
        durable == if Upcoming(old(script)) in {Go, Die(All)} then Transitioned(caller, caller, caller.phase, target, update).value
                   else caller
      ensures r.Killed? ==> |script| < |old(script)|
    {
      var e := Next();
      var next := Transitioned(durable, caller, caller.phase, target, update);
      if e.Die? {
        if e.effect.All? && next.Ok? {
          durable := next.value;
        }
        r := Killed;
      } else if e.Fail? {
        r := Failed(OwnerFailed);
      } else if next.Err? {
        r := Failed(Refused(next.error));
      } else {
        durable := next.value;
        r := Done(durable);
      }
    }
  }

  /** Give up on whatever is durable now, when that is possible. */
  method RequireRecovery(m: Machine) returns (killed: bool)
    modifies m`script, m`durable
    ensures Advances(old(m.script), m.script) && Marked(old(m.durable), m.durable)
    ensures killed ==> |m.script| < |old(m.script)|
    ensures Gentle(old(m.script)) && !killed && !Terminal(old(m.durable.phase)) && Unrepeated(old(m.durable.boundaries)) ==>
      m.durable == old(m.durable).(phase := RecoveryRequired)
    ensures Steady(old(m.script)) && Sane(old(m.durable)) ==> m.durable == GivenUp(old(m.durable))
  {
    hide Transitioned, Advances, Gentle;
    GentleUnmarked(m.script);
    var latest := m.durable;
    killed := false;
    if latest.phase != RecoveryRequired {
      RecoveryMarks(latest);
      GentleUnmarked(m.script);
      var r := m.Commit(latest, RecoveryRequired, NOTHING);
      killed := r.Killed?;
    } else {
      SelfAdvances(m.script);
    }
  }

  /** What has not ended needs a recovery. */
  ghost function GivenUp(state: State): State {
    if Terminal(state.phase) then state else state.(phase := RecoveryRequired)
  }

  lemma RecoveryMarks(state: State)
    ensures var r := Transitioned(state, state, state.phase, RecoveryRequired, NOTHING);
      && (r.Ok? ==> Marked(state, r.value))
      && (!Terminal(state.phase) && state.phase != RecoveryRequired && Unrepeated(state.boundaries) ==>
            r == Ok(state.(phase := RecoveryRequired)))
  {
  }
}

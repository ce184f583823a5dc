/** The record of one bootstrap transaction and the transitions between its
    durable states. */
module BootstrapState {
  import opened Outcomes

  type Id = nat

  type Digest = nat

  datatype Phase =
    | New
    | Preparing
    | AwaitingSteamPrefix
    | PlannedFinish
    | InstallingFinish
    | ReadyToAttempt
    | Accepted
    | RollingBack
    | RolledBack
    | RecoveryRequired

  /** The marks that Prepare, Finish and Rollback leave, in the order of their names below. */
  datatype Boundary =
    | ConfirmedPlan | BeforeSnapshot | GeAcquired | BundleAcquired | ToolPublished | AwaitingPrefix
    | PlanConfirmed | InstallingBegun | LicensedInstalled | RuntimeInstalled | RuntimeStatusVerified
    | PatchesApplied | PatchesVerified | DoctorPassed | AfterSnapshot | SnapshotsCompared
    | SteamOptionsVerified | Ready
    | RollbackPatches | RollbackRuntime | RollbackThreading | RollbackTool | AllRolledBack

  datatype Disposition = Created | Adopted

  datatype State = State(
    id: Id,
    manifest: Digest,
    phase: Phase,
    boundaries: seq<Boundary>,
    child: Option<Id>,
    backup: Option<nat>,
    disposition: Option<Disposition>,
    plan: Option<Digest>)

  /** The fields that a transition sets; None leaves a field as it is. */
  datatype Update = Update(
    boundaries: Option<seq<Boundary>>,
    child: Option<Option<Id>>,
    backup: Option<Option<nat>>,
    disposition: Option<Option<Disposition>>,
    plan: Option<Option<Digest>>)

  datatype StateError =
    | PhaseMismatch
    | NotAllowed
    | Stale
    | RepeatedBoundary
    | BoundariesNotAppended
    | WriteOnce
    | NoChange

  predicate Allowed(from: Phase, to: Phase) {
    match from
    case New => to in {Preparing, RollingBack, RecoveryRequired}
    case Preparing => to in {AwaitingSteamPrefix, RollingBack, RecoveryRequired}
    case AwaitingSteamPrefix => to in {PlannedFinish, RollingBack, RecoveryRequired}
    case PlannedFinish => to in {InstallingFinish, RollingBack, RecoveryRequired}
    case InstallingFinish => to in {ReadyToAttempt, RollingBack, RecoveryRequired}
    case ReadyToAttempt => to in {Accepted, RollingBack, RecoveryRequired}
    case Accepted => false
    case RollingBack => to in {RolledBack, RecoveryRequired}
    case RolledBack => false
    case RecoveryRequired => to == RollingBack
  }

  predicate Terminal(phase: Phase) {
    phase == Accepted || phase == RolledBack
  }

  predicate Unrepeated(boundaries: seq<Boundary>) {
    forall i, j | 0 <= i < j < |boundaries| :: boundaries[i] != boundaries[j]
  }

  const NOTHING := Update(None, None, None, None, None)

  function WithBoundary(state: State, boundary: Boundary): Update {
    NOTHING.(boundaries := Some(state.boundaries + [boundary]))
  }

  function Field<T>(before: T, update: Option<T>): T {
    if update.Some? then update.value else before
  }

  predicate KeepsOnce<T(==)>(before: Option<T>, after: Option<T>) {
    before.Some? ==> after == before
  }

  predicate WritesOnce(before: State, after: State) {
    && KeepsOnce(before.child, after.child)
    && KeepsOnce(before.backup, after.backup)
    && KeepsOnce(before.disposition, after.disposition)
    && KeepsOnce(before.plan, after.plan)
  }

  function Changed(state: State, target: Phase, update: Update): State {
    state.(phase := target,
           boundaries := Field(state.boundaries, update.boundaries),
           child := Field(state.child, update.child),
           backup := Field(state.backup, update.backup),
           disposition := Field(state.disposition, update.disposition),
           plan := Field(state.plan, update.plan))
  }

  function Updated(state: State, target: Phase, update: Update): Result<State, StateError> {
    var next := Changed(state, target, update);
    if !Unrepeated(next.boundaries) then Err(RepeatedBoundary)
    else if !(state.boundaries <= next.boundaries) then Err(BoundariesNotAppended)
    else if !WritesOnce(state, next) then Err(WriteOnce)
    else if next == state then Err(NoChange)
    else Ok(next)
  }

  function ValidateRequest(caller: State, expected: Phase, target: Phase): Result<(), StateError> {
    if caller.phase != expected then Err(PhaseMismatch)
    else if target == expected && Terminal(target) then Err(NotAllowed)
    else if target != expected && !Allowed(expected, target) then Err(NotAllowed)
    else Ok(())
  }

  /** What a transition makes of the durable state, for a caller with a copy of its own. */
  function Transitioned(durable: State, caller: State, expected: Phase, target: Phase, update: Update):
    Result<State, StateError>
  {
    var _ :- ValidateRequest(caller, expected, target);
    if durable != caller then Err(Stale) else Updated(durable, target, update)
  }

  /** What each refusal of a transition says of the request. */
  lemma TransitionRefused(durable: State, caller: State, expected: Phase, target: Phase, update: Update)
    ensures var r := Transitioned(durable, caller, expected, target, update);
      && (r == Err(PhaseMismatch) <==> caller.phase != expected)
      && (r == Err(NotAllowed) <==>
            && caller.phase == expected
            && if target == expected then target in {Accepted, RolledBack} else !Allowed(expected, target))
      && (r.Err? && r.error !in {PhaseMismatch, NotAllowed} ==>
            if caller == durable then UpdateRefused(durable, target, update, r.error) else r.error == Stale)
  {
    hide Allowed, Updated, UpdateRefused;
    RefusedUpdate(durable, target, update);
  }

  ghost predicate UpdateRefused(state: State, target: Phase, update: Update, error: StateError) {
    match error
    case RepeatedBoundary => !Unrepeated(Changed(state, target, update).boundaries)
    case BoundariesNotAppended => update.boundaries.Some? && !(state.boundaries <= update.boundaries.value)
    case WriteOnce =>
      || (update.child.Some? && state.child.Some? && update.child.value != state.child)
      || (update.backup.Some? && state.backup.Some? && update.backup.value != state.backup)
      || (update.disposition.Some? && state.disposition.Some? && update.disposition.value != state.disposition)
      || (update.plan.Some? && state.plan.Some? && update.plan.value != state.plan)
    case NoChange => Changed(state, target, update) == state
    case _ => false
  }

  lemma RefusedUpdate(state: State, target: Phase, update: Update)
    ensures var r := Updated(state, target, update);
      r.Err? ==> UpdateRefused(state, target, update, r.error) && r.error !in {PhaseMismatch, NotAllowed, Stale}
  {
    hide Unrepeated;
  }

  // History ---------------------------------------------------------------------------------------

  /** One transition leads from a to b. */
  ghost predicate Follows(a: State, b: State) {
    && a.id == b.id && a.manifest == b.manifest
    && !Terminal(a.phase) && (a.phase == b.phase || Allowed(a.phase, b.phase))
    && a.boundaries <= b.boundaries && Unrepeated(b.boundaries)
    && WritesOnce(a, b)
    && a != b
  }

  /** A caller with another copy changes nothing; any other makes one step. */
  lemma TransitionFollows(durable: State, caller: State, expected: Phase, target: Phase, update: Update)
    ensures var r := Transitioned(durable, caller, expected, target, update);
      && (r.Ok? ==> durable == caller && durable.phase == expected && r.value.phase == target && Follows(durable, r.value))
      && (durable != caller ==> r.Err?)
  {
  }

  /** Every step that is possible is possible for a caller with the durable copy. */
  lemma FollowsTransition(a: State, b: State)
    requires Follows(a, b)
    ensures Transitioned(a, a, a.phase, b.phase,
              Update(Some(b.boundaries), Some(b.child), Some(b.backup), Some(b.disposition), Some(b.plan))) == Ok(b)
  {
  }

  ghost predicate Withdrawn(phase: Phase) {
    phase == RollingBack || phase == RecoveryRequired || phase == RolledBack
  }

  /** How far a phase is on the way from NEW to an end. */
  function Progress(phase: Phase): nat {
    match phase
    case New => 0
    case Preparing => 1
    case AwaitingSteamPrefix => 2
    case PlannedFinish => 3
    case InstallingFinish => 4
    case ReadyToAttempt => 5
    case Accepted => 6
    case RollingBack => 7
    case RecoveryRequired => 7
    case RolledBack => 8
  }

  /** A phase leads to the next on the way to ACCEPTED; and what is not over can be rolled back,
      or given up, and what is rolled back can end. */
  lemma AllowedMeans(from: Phase, to: Phase)
    ensures Allowed(from, to) <==>
      || (Progress(from) < 6 && Progress(to) == Progress(from) + 1 && to != RollingBack && to != RecoveryRequired)
      || (from == RollingBack && to == RolledBack)
      || (from !in {Accepted, RolledBack} && from != to && to in {RollingBack, RecoveryRequired})
    ensures Terminal(from) <==> forall next :: !Allowed(from, next)
  {
    if Terminal(from) {
    } else {
      assert Allowed(from, if from == RollingBack then RecoveryRequired else RollingBack);
    }
  }

  /** What any number of transitions can make of a state. */
  ghost predicate Later(a: State, b: State) {
    && a.id == b.id && a.manifest == b.manifest
    && a.boundaries <= b.boundaries
    && WritesOnce(a, b)
    && Progress(a.phase) <= Progress(b.phase)
    && (Terminal(a.phase) ==> b == a)
    && (Withdrawn(a.phase) ==> Withdrawn(b.phase))
  }

  ghost predicate Linear(history: seq<State>) {
    forall i {:trigger history[i]} | 0 <= i < |history| - 1 :: Follows(history[i], history[i + 1])
  }

  lemma LaterStep(a: State, b: State, c: State)
    requires Later(a, b) && Follows(b, c)
    ensures Later(a, c)
  {
  }

  lemma LaterSelf(a: State)
    ensures Later(a, a)
  {
  }

  lemma LinearStep(history: seq<State>, i: nat)
    requires Linear(history) && i < |history| - 1
    ensures Follows(history[i], history[i + 1])
  {
  }

  /** Boundaries only grow, fields written once stay, ends absorb: over any history. */
  lemma {:induction false} LinearLater(history: seq<State>, i: nat, j: nat)
    requires Linear(history) && i <= j < |history|
    ensures Later(history[i], history[j])
    decreases j
  {
    hide Later, Follows, Linear;
    if i == j {
      LaterSelf(history[i]);
    } else {
      LinearStep(history, j - 1);
      LinearLater(history, i, j - 1);
      LaterStep(history[i], history[j - 1], history[j]);
    }
  }

  /** A history leads from a to b. */
  ghost predicate Reaches(a: State, b: State) {
    exists history :: Leads(history, a, b)
  }

  ghost predicate Leads(history: seq<State>, a: State, b: State) {
    Linear(history) && history != [] && history[0] == a && history[|history| - 1] == b
  }

  lemma ReachesSelf(a: State)
    ensures Reaches(a, a)
  {
    assert Leads([a], a, a);
  }

  lemma ReachesStep(a: State, b: State)
    requires Follows(a, b)
    ensures Reaches(a, b)
  {
    assert Leads([a, b], a, b);
  }

  lemma ReachesOn(a: State, b: State, c: State)
    requires Reaches(a, b) && Reaches(b, c)
    ensures Reaches(a, c)
  {
    hide Follows;
    var first :| Leads(first, a, b);
    var second :| Leads(second, b, c);
    var whole := first + second[1..];
    forall i {:trigger whole[i]} | 0 <= i < |whole| - 1 ensures Follows(whole[i], whole[i + 1]) {
      if i < |first| - 1 {
        LinearStep(first, i);
      } else {
        LinearStep(second, i - |first| + 1);
      }
    }
    assert Leads(whole, a, c);
  }

  /** The end of a history is later than its start. */
  lemma ReachesLater(a: State, b: State)
    requires Reaches(a, b)
    ensures Later(a, b)
  {
    var history :| Leads(history, a, b);
    LinearLater(history, 0, |history| - 1);
  }

  /** A state that a transaction left can be the durable one again, and a caller with
      an old copy can then succeed, but only while it is rolled back. */
  lemma StatesReturnOnlyInRollback(history: seq<State>, i: nat, j: nat)
    requires Linear(history) && i < j < |history| && history[i] == history[j]
    ensures history[i].phase == RollingBack || history[i].phase == RecoveryRequired
  {
    LinearLater(history, i + 1, j);
    assert Follows(history[i], history[i + 1]);
  }

  lemma StatesDoReturn(state: State)
    requires state.phase == RollingBack && Unrepeated(state.boundaries)
    ensures Linear([state, state.(phase := RecoveryRequired), state])
  {
  }
}

/** The composed setup: one record per transaction, a pointer to the active one, and
    three operations that check under the lease what the pointer leads to. */
module ComposedSetup {
  import opened Outcomes

  type Token = nat

  /** A plan; its SHA-256 is identified with it. */
  type Plan = nat

  datatype Phase = Preparing | AwaitingSteamPrefix | InstallingFinish | ReadyToAttempt | RollingBack | RolledBack

  datatype Record = Record(id: Token, manifest: nat, prepare: Plan, finish: Option<Plan>, phase: Phase)

  datatype Owner = Tool | LicensedFile | Runtime

  /** The files of a transaction directory; owners are those that have left a journal of
      their own, installed those whose install was completed, and undone the withdrawn ones. */
  datatype Files = Files(preparePlan: Option<Plan>, record: Option<Record>,
                         owners: set<Owner>, installed: set<Owner>, undone: set<Owner>)

  datatype Effect = Nothing | Part | All

  /** A step succeeds; or the process dies in it, or it fails, and has taken effect so far or not. */
  datatype Event = Go | Kill(effect: Effect) | Fail(effect: Effect)

  datatype SetupError =
    | NoTransaction
    | AlreadyExists
    | NotConfirmed
    | WrongCheckpoint
    | RecordInvalid
    | PlanChanged
    | InvalidTransition
    | Interrupted
    | StepFailed

  type Reply<+T> = Outcome<T, SetupError>

  datatype Command = Prepare(plan: Plan, confirmed: bool) | Finish(plan: Plan, confirmed: bool) | RollBack(confirmed: bool)

  /** An owner was called for a transaction, in the phase that was durable. */
  datatype Call = Install(owner: Owner, token: Token, phase: Phase) | Undo(owner: Owner, token: Token, phase: Phase)

  predicate Allowed(from: Phase, to: Phase) {
    match from
    case Preparing => to in {AwaitingSteamPrefix, RollingBack}
    case AwaitingSteamPrefix => to in {InstallingFinish, RollingBack}
    case InstallingFinish => to in {ReadyToAttempt, RollingBack}
    case ReadyToAttempt => to == RollingBack
    case RollingBack => to in {RollingBack, RolledBack}
    case RolledBack => false
  }

  /** The phase and the plan of Finish agree. */
  predicate Consistent(r: Record) {
    && (r.phase in {InstallingFinish, ReadyToAttempt} ==> r.finish.Some?)
    && (r.phase in {Preparing, AwaitingSteamPrefix} ==> r.finish.None?)
  }

  /** The plan of Finish is there while it is carried out, and not before. */
  lemma ConsistentMeans(r: Record)
    ensures Consistent(r) <==>
      match r.phase
      case Preparing => r.finish == None
      case AwaitingSteamPrefix => r.finish == None
      case InstallingFinish => r.finish != None
      case ReadyToAttempt => r.finish != None
      case RollingBack => true
      case RolledBack => true
  {
  }

  /** The owners that a phase has behind it; they are withdrawn in the reverse order. */
  ghost predicate OwnersAgree(f: Files) {
    && f.undone <= f.owners && f.installed <= f.owners
    && (f.record.Some? ==>
          && (f.record.value.phase in {AwaitingSteamPrefix, InstallingFinish, ReadyToAttempt} ==> Tool in f.installed)
          && (f.record.value.phase == ReadyToAttempt ==> f.installed == {Tool, LicensedFile, Runtime})
          && (f.undone != {} ==> f.record.value.phase in {RollingBack, RolledBack})
          && (f.record.value.phase == RolledBack ==> f.undone == f.owners))
    && (LicensedFile in f.undone && Runtime in f.owners ==> Runtime in f.undone)
    && (Tool in f.undone ==> f.undone == f.owners)
  }

  /** What a load of the active transaction accepts. */
  predicate Loadable(files: map<Token, Files>, active: Option<Token>, manifest: nat) {
    active.Some? ==>
      && active.value in files && files[active.value].record.Some?
      && var r := files[active.value].record.value;
         && r.id == active.value && r.manifest == manifest && Consistent(r)
         && files[active.value].preparePlan == Some(r.prepare)
  }

  function Active(files: map<Token, Files>, active: Option<Token>): Option<Record> {
    if active.Some? && active.value in files then files[active.value].record else None
  }

  /** One transaction goes on: its phases only advance, and its plans are written once. */
  ghost predicate GoesOn(before: Record, after: Record) {
    && after.id == before.id && after.manifest == before.manifest && after.prepare == before.prepare
    && Rank(before.phase) <= Rank(after.phase)
    && (before.finish.Some? ==> after.finish == before.finish)
  }

  /** Every transaction goes on, and none is lost. */
  ghost predicate AllGoOn(before: map<Token, Files>, after: map<Token, Files>) {
    forall t | t in before && before[t].record.Some? ::
      t in after && after[t].record.Some? && GoesOn(before[t].record.value, after[t].record.value)
  }

  /** The active transaction went on, or a new one took the place of one that was over. */
  ghost predicate Succeeds(before: Option<Record>, after: Option<Record>) {
    || after == before
    || (before.Some? && after.Some? && GoesOn(before.value, after.value))
    || ((before.None? || before.value.phase == RolledBack) && after.Some?)
  }

  /** The runtime's installer began and did not complete. */
  predicate Unfinished(f: Files) {
    Runtime in f.owners && Runtime !in f.installed
  }

  function Rank(phase: Phase): nat {
    match phase
    case Preparing => 0
    case AwaitingSteamPrefix => 1
    case InstallingFinish => 2
    case ReadyToAttempt => 3
    case RollingBack => 4
    case RolledBack => 5
  }

  /** A phase leads to the next one; what is not over can be rolled back, again and again. */
  lemma AllowedMeans(from: Phase, to: Phase)
    ensures Allowed(from, to) <==>
      || (Rank(to) == Rank(from) + 1 && from != ReadyToAttempt)
      || (from != RolledBack && to == RollingBack)
  {
  }

  /** What happens at the next step, and what is left after it. */
  function Head(script: seq<Event>): Event {
    if script == [] then Go else script[0]
  }

  function Tail(script: seq<Event>): seq<Event> {
    if script == [] then [] else script[1..]
  }

  /** How far a new transaction has been written. */
  datatype Written = Untouched | DirectoryMade | PlanWritten | RecordWritten | Pointed

  /** The next n steps succeed; and what comes after them. */
  ghost predicate GoesFor(script: seq<Event>, n: nat) {
    n == 0 || (Head(script).Go? && GoesFor(Tail(script), n - 1))
  }

  ghost function Rest(script: seq<Event>, n: nat): seq<Event> {
    if n == 0 then script else Rest(Tail(script), n - 1)
  }

  lemma {:induction false} GoesForBoth(script: seq<Event>, m: nat, n: nat)
    ensures GoesFor(script, m + n) <==> GoesFor(script, m) && GoesFor(Rest(script, m), n)
    ensures Rest(script, m + n) == Rest(Rest(script, m), n)
    decreases m
  {
    if m > 0 {
      GoesForBoth(Tail(script), m - 1, n);
    }
  }

  lemma FourSteps(script: seq<Event>)
    ensures WrittenBy(script) == Pointed <==> GoesFor(script, 4)
    ensures Rest(script, 4) == Tail(Tail(Tail(Tail(script))))
    ensures GoesFor(script, 7) <==> GoesFor(script, 4) && GoesFor(Rest(script, 4), 3)
    ensures Rest(script, 7) == Rest(Rest(script, 4), 3)
  {
    GoesForBoth(script, 4, 3);
    GoesForBoth(script, 2, 2);
    GoesForBoth(script, 1, 1);
    GoesForBoth(Rest(script, 2), 1, 1);
    GoesForOne(script);
    GoesForOne(Tail(script));
    GoesForOne(Tail(Tail(script)));
    GoesForOne(Tail(Tail(Tail(script))));
  }

  lemma GoesForOne(script: seq<Event>)
    ensures (GoesFor(script, 1) <==> Head(script).Go?) && Rest(script, 1) == Tail(script)
  {
  }

  /** Where nothing is scripted, every step succeeds. */
  lemma {:induction false} GoesOnAlone(n: nat)
    ensures GoesFor([], n) && Rest([], n) == []
  {
    if n > 0 {
      GoesOnAlone(n - 1);
    }
  }

  /** What becomes of an owner's files when its install is called, and when it is withdrawn. */
  ghost function AfterInstall(f: Files, owner: Owner, e: Event): Files {
    match e
    case Go => f.(owners := f.owners + {owner}, installed := f.installed + {owner})
    case Kill(effect) => AfterEffect(f, owner, effect)
    case Fail(effect) => AfterEffect(f, owner, effect)
  }

  ghost function AfterEffect(f: Files, owner: Owner, effect: Effect): Files {
    match effect
    case Nothing => f
    case Part => f.(owners := f.owners + {owner})
    case All => f.(owners := f.owners + {owner}, installed := f.installed + {owner})
  }

  ghost predicate Withdraws(e: Event) {
    e in {Go, Kill(All), Fail(All)}
  }

  /** It is written until a step does not succeed. */
  function WrittenBy(script: seq<Event>): Written {
    var second := Tail(script);
    var third := Tail(second);
    var fourth := Tail(third);
    if !Head(script).Go? then Untouched
    else if !Head(second).Go? then DirectoryMade
    else if !Head(third).Go? then PlanWritten
    else if !Head(fourth).Go? then RecordWritten
    else Pointed
  }

  /** The calls of one command are all alike, and made for the active transaction, which
      was in one of these phases and still is. */
  ghost predicate ForActive(before: seq<Call>, after: seq<Call>, record: Option<Record>, phases: set<Phase>, install: bool,
                            phase: Phase)
  {
    after == before
    || (&& record.Some? && record.value.phase in phases
        && Only(before, after, install, record.value.id, phase))
  }

  /** Nothing but one kind of call was made. */
  ghost predicate Only(before: seq<Call>, after: seq<Call>, install: bool, token: Token, phase: Phase) {
    before <= after && forall k | |before| <= k < |after| ::
      after[k].Install? == install && after[k].token == token && after[k].phase == phase
  }

  class Setup {
    var files: map<Token, Files>
    var active: Option<Token>
    var script: seq<Event>
    var drawn: nat
    ghost var calls: seq<Call>
    const draw: nat -> Token
    const manifest: nat

    constructor (script: seq<Event>, draw: nat -> Token, manifest: nat)
      ensures files == map[] && active == None && Valid() && calls == [] && drawn == 0
      ensures this.script == script && this.draw == draw && this.manifest == manifest
    {
      files, active, drawn, calls := map[], None, 0, [];
      this.script, this.draw, this.manifest := script, draw, manifest;
    }

    /** What is active can be loaded, and the owners of every transaction are those of its phase. */
    ghost predicate Valid()
      reads this
    {
      Loads() && AllAgree(files)
    }

    /** The next load of the active transaction succeeds. */
    ghost predicate Loads()
      reads this
    {
      Loadable(files, active, manifest)
    }

    /** The tokens that are still to come are new. */
    ghost predicate Lucky()
      reads this
    {
      && (forall i: nat, j: nat | drawn <= i < j :: draw(i) != draw(j))
      && (forall i: nat | drawn <= i :: draw(i) !in files)
    }

    /** The active record now. */
    ghost function Current(): Option<Record>
      reads this
    {
      Active(files, active)
    }

    method Next() returns (e: Event)
      modifies `script
      ensures e == Head(old(script)) && script == Tail(old(script))
    {
      if script == [] {
        return Go;
      }
      e := script[0];
      script := script[1..];
    }

    method Tick() returns (r: Reply<()>)
      modifies `script
      ensures (r.Done? <==> GoesFor(old(script), 1)) && script == Rest(old(script), 1) == Tail(old(script))
      ensures r.Done? <==> Head(old(script)).Go?
      ensures r.Failed? ==> r.error == StepFailed
    {
      var e := Next();
      r := match e case Go => Done(()) case Kill(_) => Killed case Fail(_) => Failed(StepFailed);
    }

    method LoadActive() returns (r: Reply<Option<Record>>)
      ensures !r.Killed? && (r.Done? <==> Loadable(files, active, manifest))
      ensures r.Done? ==> r.value == Active(files, active) && (r.value.None? <==> active.None?)
      ensures r.Failed? ==> r.error in {RecordInvalid, PlanChanged}
      ensures r == Failed(PlanChanged) ==>
        && active.Some? && active.value in files && files[active.value].record.Some?
        && files[active.value].preparePlan != Some(files[active.value].record.value.prepare)
    {
      if active.None? {
        return Done(None);
      }
      if active.value !in files || files[active.value].record.None? {
        return Failed(RecordInvalid);
      }
      var record := files[active.value].record.value;
      if record.id != active.value || record.manifest != manifest || !Consistent(record) {
        return Failed(RecordInvalid);
      }
      if files[active.value].preparePlan != Some(record.prepare) {
        return Failed(PlanChanged);
      }
      r := Done(Some(record));
    }

    /** The pointer leads to this record. */
    ghost predicate Points(record: Record)
      reads this
    {
      active == Some(record.id) && record.id in files && files[record.id].record == Some(record)
    }

    /** Install an owner of the active transaction. */
    method InstallOwner(record: Record, owner: Owner) returns (r: Reply<()>)
      requires Points(record) && record.phase == if owner == Tool then Preparing else InstallingFinish
      modifies `script, `files, `calls
      ensures (old(Valid()) ==> Valid()) && (old(Loads()) ==> Loads())
      ensures Points(record) && Elsewhere(old(files), files, record.id)
      ensures old(files)[record.id].owners <= files[record.id].owners <= old(files)[record.id].owners + {owner}
      ensures files[record.id].undone == old(files)[record.id].undone
      ensures old(files)[record.id].installed <= files[record.id].installed
      ensures r.Done? ==> owner in files[record.id].installed
      ensures calls == old(calls) + [Install(owner, record.id, record.phase)]
      ensures files[record.id] == AfterInstall(old(files)[record.id], owner, Head(old(script)))
      ensures (r.Done? <==> GoesFor(old(script), 1)) && script == Rest(old(script), 1)
      ensures r.Failed? ==> r.error == StepFailed
    {
      calls := calls + [Install(owner, record.id, record.phase)];
      var e := Next();
      var f := files[record.id];
      if e.Go? || e.effect.All? {
        files := files[record.id := f.(owners := f.owners + {owner}, installed := f.installed + {owner})];
      } else if e.effect.Part? {
        files := files[record.id := f.(owners := f.owners + {owner})];
      }
      r := match e case Go => Done(()) case Kill(_) => Killed case Fail(_) => Failed(StepFailed);
    }

    /** Withdraw an owner of the active transaction, if it has left a journal. */
    method UndoOwner(record: Record, owner: Owner) returns (r: Reply<()>)
      requires Points(record) && record.phase == RollingBack
      requires owner == LicensedFile && Runtime in files[record.id].owners ==> Runtime in files[record.id].undone
      requires owner == Tool ==> files[record.id].owners - {Tool} <= files[record.id].undone
      modifies `script, `files, `calls
      ensures (old(Valid()) ==> Valid()) && Points(record) && Elsewhere(old(files), files, record.id)
      ensures var f := old(files)[record.id];
        files[record.id] == f.(undone := files[record.id].undone) && f.undone <= files[record.id].undone <= f.undone + {owner}
      ensures owner !in old(files)[record.id].owners - old(files)[record.id].undone ==> r.Done?
      ensures r.Done? && owner in files[record.id].owners ==> owner in files[record.id].undone
      ensures var pending := {owner} * (old(files)[record.id].owners - old(files)[record.id].undone);
        && calls == old(calls) + UndoCalls(record.id, pending)
        && (r.Done? <==> GoesFor(old(script), |UndoCalls(record.id, pending)|))
        && script == Rest(old(script), |UndoCalls(record.id, pending)|)
        && (owner in pending ==> (owner in files[record.id].undone <==> Withdraws(Head(old(script)))))
      ensures r.Failed? ==> r.error == StepFailed
    {
      var f := files[record.id];
      if owner !in f.owners || owner in f.undone {
        return Done(());
      }
      calls := calls + [Undo(owner, record.id, record.phase)];
      var e := Next();
      if e.Go? || e.effect.All? {
        files := files[record.id := f.(undone := f.undone + {owner})];
      }
      r := match e case Go => Done(()) case Kill(_) => Killed case Fail(_) => Failed(StepFailed);
    }

    /** Move the active transaction to a phase. */
    method MovePhase(record: Record, phase: Phase, finish: Option<Plan>) returns (r: Reply<Record>)
      requires Points(record)
      requires finish.Some? ==> phase == InstallingFinish && record.finish.None?
      requires phase == InstallingFinish ==> finish.Some?
      requires Valid() ==> OwnersAgree(files[record.id].(record := Some(record.(phase := phase))))
      modifies `script, `files
      ensures (old(Valid()) ==> Valid()) && (old(Loads()) ==> Loads()) && Elsewhere(old(files), files, record.id)
      ensures r.Done? ==>
        && Allowed(record.phase, phase) && Points(r.value)
        && r.value == record.(phase := phase, finish := if finish.Some? then finish else record.finish)
        && files[record.id] == old(files)[record.id].(record := Some(r.value))
      ensures !r.Done? ==> files == old(files)
      ensures (r.Done? <==> Allowed(record.phase, phase) && GoesFor(old(script), 1)) && (r.Done? ==> script == Rest(old(script), 1))
      ensures r.Failed? ==> r.error == if Allowed(record.phase, phase) then StepFailed else InvalidTransition
    {
      if !Allowed(record.phase, phase) {
        return Failed(InvalidTransition);
      }
      var _ :- Tick();
      var next := record.(phase := phase, finish := if finish.Some? then finish else record.finish);
      files := files[record.id := files[record.id].(record := Some(next))];
      r := Done(next);
    }

    /** Publish the tool of a prepared transaction. */
    method PrepareLocked(record: Record) returns (r: Reply<Record>)
      requires Points(record) && record.phase == Preparing
      modifies `script, `files, `calls
      ensures (old(Valid()) ==> Valid()) && (old(Loads()) ==> Loads())
      ensures Advanced(record, old(files)) && files[record.id].record.value.phase in {Preparing, AwaitingSteamPrefix}
      ensures files[record.id].undone == old(files)[record.id].undone
      ensures Only(old(calls), calls, true, record.id, Preparing)
      ensures (r.Done? <==> GoesFor(old(script), 3)) && (r.Done? ==> script == Rest(old(script), 3))
      ensures !GoesFor(old(script), 1) ==> calls == old(calls) && files == old(files)
      ensures r.Done? ==> calls == old(calls) + [Install(Tool, record.id, Preparing)]
      ensures r.Done? ==> Points(r.value) && r.value.phase == AwaitingSteamPrefix && Tool in files[r.value.id].installed
    {
      GoesForBoth(script, 1, 1);
      GoesForBoth(script, 2, 1);
      var _ :- Tick();
      var _ :- InstallOwner(record, Tool);
      r := MovePhase(record, AwaitingSteamPrefix, None);
    }

    /** Only this transaction changed, and it went on; it is still the active one. */
    ghost predicate Advanced(record: Record, before: map<Token, Files>)
      reads this
    {
      && active == Some(record.id) && Elsewhere(before, files, record.id) && record.id in files
      && files[record.id].record.Some? && GoesOn(record, files[record.id].record.value)
    }

    /** The active transaction can be loaded, and is in one of these phases. */
    ghost predicate InPhase(phases: set<Phase>)
      reads this
    {
      Loads() && Current().Some? && Current().value.phase in phases
    }

    /** A confirmed Prepare begins a new transaction: none is active, or one that is over. */
    ghost predicate StartsNew(confirmed: bool)
      reads this
    {
      Loads() && confirmed && (Current().None? || Current().value.phase == RolledBack)
    }

    /** How far a Prepare is going to write a new transaction. */
    ghost function Future(confirmed: bool): Written
      reads this
    {
      if StartsNew(confirmed) then WrittenBy(script) else Untouched
    }

    /** Go on with what was begun, or take the place of what is over.  It leaves an active
        transaction that can be loaded, unless the token that it drew is the active one, with
        another plan, and the process died, or failed, when the new plan was written and the new
        record was not.  A token that comes up again inherits the owners of its directory: they
        disagree with the new record as soon as that is written, if one of them was withdrawn. */
    method PrepareComposed(plan: Plan, confirmed: bool) returns (r: Reply<Record>)
      modifies this
      ensures old(Valid()) ==>
        && (Loads() <==> !Mismatched(old(files), old(active), draw(old(drawn)), plan, old(Future(confirmed))))
        && (AllAgree(files) <==> !Inherited(old(files), draw(old(drawn)), old(Future(confirmed))))
      ensures old(StartsNew(confirmed)) && old(Future(confirmed)) != Pointed ==>
        && active == old(active) && calls == old(calls) && !r.Done?
        && WrittenFor(old(files), files, draw(old(drawn)), plan, NewRecord(draw(old(drawn)), manifest, plan), old(Future(confirmed)))
      ensures old(Future(confirmed)) == Pointed ==>
        && active == Some(draw(old(drawn))) && Elsewhere(old(files), files, draw(old(drawn)))
        && Current().Some? && GoesOn(NewRecord(draw(old(drawn)), manifest, plan), Current().value)
      ensures !old(StartsNew(confirmed)) ==> active == old(active) && AllGoOn(old(files), files) && files.Keys == old(files).Keys
      ensures drawn == old(drawn) + if old(StartsNew(confirmed)) then 1 else 0
      ensures old(Valid()) && draw(old(drawn)) !in old(files) ==>
        Succeeds(old(Current()), Current()) && AllGoOn(old(files), files)
      ensures ForActive(old(calls), calls, Current(), {Preparing, AwaitingSteamPrefix}, true, Preparing)
      ensures r.Done? ==> Points(r.value) && r.value.phase == AwaitingSteamPrefix && Tool in files[r.value.id].installed
      ensures old(StartsNew(confirmed)) ==> (r.Done? <==> GoesFor(old(script), 7)) && (r.Done? ==> script == Rest(old(script), 7))
      ensures r.Done? ==> calls == old(calls) + [Install(Tool, r.value.id, Preparing)]
      ensures old(InPhase({Preparing})) ==> (r.Done? <==> GoesFor(old(script), 3)) && (r.Done? ==> script == Rest(old(script), 3))
      ensures old(Loads()) && !confirmed && old(Current().None? || InPhase({RolledBack})) ==>
        r == Failed(NotConfirmed) && Same(old(files), old(active), old(calls))
      ensures old(InPhase({AwaitingSteamPrefix, InstallingFinish, ReadyToAttempt, RollingBack})) ==>
        r == Failed(AlreadyExists) && Same(old(files), old(active), old(calls))
      ensures !old(Loads()) ==> r.Failed? && Same(old(files), old(active), old(calls))
    {
      var loaded :- LoadActive();
      if loaded.Some? && loaded.value.phase == Preparing {
        r := PrepareLocked(loaded.value);
        return;
      }
      if loaded.Some? && loaded.value.phase != RolledBack {
        return Failed(AlreadyExists);
      }
      if !confirmed {
        return Failed(NotConfirmed);
      }
      var token := draw(drawn);
      drawn := drawn + 1;
      r := PrepareNew(token, plan);
    }

    /** A new transaction, from its directory on. */
    method PrepareNew(token: Token, plan: Plan) returns (r: Reply<Record>)
      modifies `script, `files, `calls, `active
      ensures old(Valid()) ==>
        && (Loads() <==> !Mismatched(old(files), old(active), token, plan, WrittenBy(old(script))))
        && (AllAgree(files) <==> !Inherited(old(files), token, WrittenBy(old(script))))
      ensures WrittenBy(old(script)) != Pointed ==>
        && active == old(active) && calls == old(calls) && !r.Done?
        && WrittenFor(old(files), files, token, plan, NewRecord(token, manifest, plan), WrittenBy(old(script)))
      ensures WrittenBy(old(script)) == Pointed ==>
        && active == Some(token) && Elsewhere(old(files), files, token)
        && Current().Some? && GoesOn(NewRecord(token, manifest, plan), Current().value)
      ensures ForActive(old(calls), calls, Current(), {Preparing, AwaitingSteamPrefix}, true, Preparing)
      ensures r.Done? ==> Points(r.value) && r.value.phase == AwaitingSteamPrefix && Tool in files[r.value.id].installed
      ensures (r.Done? <==> GoesFor(old(script), 7)) && (r.Done? ==> script == Rest(old(script), 7))
      ensures r.Done? ==> calls == old(calls) + [Install(Tool, token, Preparing)]
    {
      hide Loadable, OwnersAgree, AllAgree, WrittenFor;
      ghost var before, pointer, steps := files, active, script;
      FourSteps(steps);
      var record := NewRecord(token, manifest, plan);
      var done := WriteFiles(token, plan, record);
      ghost var written := if WrittenBy(steps) == Pointed then RecordWritten else WrittenBy(steps);
      if Loadable(before, pointer, manifest) && AllAgree(before) {
        WrittenLoads(before, files, pointer, token, plan, record, manifest, written);
      }
      if !done.Done? {
        return done.PropagateFailure();
      }
      var _ :- Tick();
      active := Some(token);
      ghost var pointed := files;
      WrittenThere(before, files, token, plan, record, RecordWritten);
      r := PrepareLocked(record);
      StillDisagrees(pointed, files, token);
    }

    /** The plan and the record of a new transaction, before the pointer leads to it. */
    method WriteFiles(token: Token, plan: Plan, record: Record) returns (r: Reply<()>)
      modifies `script, `files
      ensures var written := if WrittenBy(old(script)) == Pointed then RecordWritten else WrittenBy(old(script));
        WrittenFor(old(files), files, token, plan, record, written)
      ensures r.Done? <==> WrittenBy(old(script)) == RecordWritten || WrittenBy(old(script)) == Pointed
      ensures r.Done? ==> script == Tail(Tail(Tail(old(script))))
      ensures r.Failed? ==> r.error == StepFailed
    {
      var _ :- Tick();
      if token !in files {
        files := files[token := EMPTY];
      }
      var _ :- Tick();
      files := files[token := files[token].(preparePlan := Some(plan))];
      var _ :- Tick();
      files := files[token := files[token].(record := Some(record))];
      r := Done(());
    }

    ghost predicate Same(f: map<Token, Files>, a: Option<Token>, c: seq<Call>)
      reads this
    {
      files == f && active == a && calls == c
    }

    method FinishComposed(plan: Plan, confirmed: bool) returns (r: Reply<Record>)
      modifies `script, `files, `calls
      ensures old(Valid()) ==> Valid() && Succeeds(old(Current()), Current())
      ensures files.Keys == old(files).Keys && AllGoOn(old(files), files)
      ensures ForActive(old(calls), calls, Current(), {InstallingFinish, ReadyToAttempt}, true, InstallingFinish)
      ensures r.Done? ==>
        Points(r.value) && r.value.phase == ReadyToAttempt && {LicensedFile, Runtime} <= files[r.value.id].installed
      ensures active.Some? && active.value in old(files) && old(LeftMidway(files[active.value].owners, files[active.value].installed)) ==>
        !r.Done? && calls == old(calls)
      ensures old(Loads()) && !old(InPhase({AwaitingSteamPrefix, InstallingFinish})) ==>
        r == Failed(WrongCheckpoint) && Same(old(files), active, old(calls))
      ensures old(InPhase({AwaitingSteamPrefix})) && !confirmed ==>
        r == Failed(NotConfirmed) && Same(old(files), active, old(calls))
      ensures old(InPhase({AwaitingSteamPrefix})) && Current() != old(Current()) ==>
        Current().Some? && Current().value.finish == Some(plan)
      ensures old(InPhase(if confirmed then {AwaitingSteamPrefix, InstallingFinish} else {InstallingFinish})) ==>
        var steps := (if old(InPhase({AwaitingSteamPrefix})) then 5 else 3) + |InstallCalls(active.value, old(files[active.value].owners))|;
        if old(LeftMidway(files[active.value].owners, files[active.value].installed)) then
          !r.Done? && (GoesFor(old(script), steps) ==> r == Failed(Interrupted))
        else
          && (r.Done? <==> GoesFor(old(script), steps)) && (r.Done? ==> script == Rest(old(script), steps))
          && (r.Done? ==> calls == old(calls) + InstallCalls(active.value, old(files[active.value].owners)))
      ensures !old(Loads()) ==> r.Failed? && Same(old(files), active, old(calls))
    {
      hide OwnersAgree, InstallCalls;
      var loaded :- LoadActive();
      if loaded.None? || (loaded.value.phase != AwaitingSteamPrefix && loaded.value.phase != InstallingFinish) {
        return Failed(WrongCheckpoint);
      }
      var record := loaded.value;
      GoesForBoth(script, 1, 2 + |InstallCalls(record.id, files[record.id].owners)|);
      if record.phase == AwaitingSteamPrefix {
        if !confirmed {
          return Failed(NotConfirmed);
        }
        GoesForBoth(script, 2, 3 + |InstallCalls(record.id, files[record.id].owners)|);
        GoesForBoth(Rest(script, 2), 1, 2 + |InstallCalls(record.id, files[record.id].owners)|);
        record :- StartFinish(record, plan);
      }
      r := InstallAll(record);
    }

    /** Write the plan, and begin with what it says. */
    method StartFinish(record: Record, plan: Plan) returns (r: Reply<Record>)
      requires Points(record) && record.phase == AwaitingSteamPrefix && record.finish.None?
      modifies `script, `files
      ensures (old(Valid()) ==> Valid()) && Elsewhere(old(files), files, record.id) && Advanced(record, old(files))
      ensures r.Done? ==>
        && r.value == record.(phase := InstallingFinish, finish := Some(plan)) && Points(r.value)
        && files[record.id] == old(files)[record.id].(record := Some(r.value))
      ensures !r.Done? ==> files == old(files)
      ensures (r.Done? <==> GoesFor(old(script), 2)) && (r.Done? ==> script == Rest(old(script), 2))
    {
      hide OwnersAgree, Loadable;
      GoesForBoth(script, 1, 1);
      var _ :- Tick();
      MoveAgrees(files[record.id], record, InstallingFinish);
      r := MovePhase(record, InstallingFinish, Some(plan));
    }

    /** The licensed file, and the runtime unless it is installed.  An install of the runtime
        that was begun and not completed can only be rolled back. */
    method InstallAll(record: Record) returns (r: Reply<Record>)
      requires Points(record) && record.phase == InstallingFinish
      modifies `script, `files, `calls
      ensures (old(Valid()) ==> Valid()) && Advanced(record, old(files))
      ensures files[record.id].record.value.phase in {InstallingFinish, ReadyToAttempt}
      ensures Only(old(calls), calls, true, record.id, InstallingFinish)
      ensures r.Done? ==>
        Points(r.value) && r.value.phase == ReadyToAttempt && {LicensedFile, Runtime} <= files[r.value.id].installed
      ensures old(Unfinished(files[record.id])) ==> !r.Done? && calls == old(calls)
      ensures files[record.id].record.value.finish == record.finish
      ensures var calls0 := InstallCalls(record.id, old(files)[record.id].owners);
        if old(LeftMidway(files[record.id].owners, files[record.id].installed)) then
          !r.Done? && (GoesFor(old(script), 1) ==> r == Failed(Interrupted))
        else
          && (r.Done? <==> GoesFor(old(script), 3 + |calls0|)) && (r.Done? ==> script == Rest(old(script), 3 + |calls0|))
          && (r.Done? ==> calls == old(calls) + calls0)
    {
      hide OwnersAgree, Loadable, GoesOn;
      GoesOnSelf(record);
      ghost var k := |InstallCalls(record.id, files[record.id].owners)|;
      GoesForBoth(script, 1, k);
      GoesForBoth(script, 1 + k, 1);
      GoesForBoth(script, 2 + k, 1);
      var _ :- Tick();
      if Unfinished(files[record.id]) {
        return Failed(Interrupted);
      }
      var _ :- InstallBoth(record);
      var _ :- Tick();
      ReadyAgrees(files[record.id], record);
      r := MovePhase(record, ReadyToAttempt, None);
      GoesOnTo(record, ReadyToAttempt);
    }

    method InstallBoth(record: Record) returns (r: Reply<()>)
      requires Points(record) && record.phase == InstallingFinish && !Unfinished(files[record.id])
      modifies `script, `files, `calls
      ensures (old(Valid()) ==> Valid()) && Points(record) && Elsewhere(old(files), files, record.id)
      ensures Only(old(calls), calls, true, record.id, InstallingFinish)
      ensures r.Done? ==> {LicensedFile, Runtime} <= files[record.id].installed
      ensures var calls0 := InstallCalls(record.id, old(files)[record.id].owners);
        && (r.Done? <==> GoesFor(old(script), |calls0|)) && (r.Done? ==> script == Rest(old(script), |calls0|))
        && (r.Done? ==> calls == old(calls) + calls0)
    {
      hide OwnersAgree, Loadable;
      GoesForBoth(script, 1, 1);
      var _ :- InstallOwner(record, LicensedFile);
      if Runtime !in files[record.id].owners {
        var _ :- InstallOwner(record, Runtime);
      }
      r := Done(());
    }

    method RollbackComposed(confirmed: bool) returns (r: Reply<Record>)
      modifies `script, `files, `calls
      ensures old(Valid()) ==> Valid() && Succeeds(old(Current()), Current())
      ensures files.Keys == old(files).Keys && AllGoOn(old(files), files)
      ensures ForActive(old(calls), calls, Current(), {RollingBack, RolledBack}, false, RollingBack)
      ensures confirmed && old(Loads() && active.Some? && !InPhase({RolledBack})) ==>
        var steps := 3 + |UndoCalls(active.value, old(files[active.value].owners - files[active.value].undone))|;
        (r.Done? <==> GoesFor(old(script), steps)) && (r.Done? ==> script == Rest(old(script), steps))
      ensures r.Done? ==> old(Current()).Some? && r.value == old(Current()).value.(phase := RolledBack)
      ensures r.Done? && old(Valid()) ==>
        && Points(r.value) && r.value.phase == RolledBack && files[r.value.id].undone == files[r.value.id].owners
        && calls == old(calls) + UndoCalls(r.value.id, old(files)[r.value.id].owners - old(files)[r.value.id].undone)
      ensures old(Loads()) && active.None? ==> r == Failed(NoTransaction) && Same(old(files), active, old(calls))
      ensures old(InPhase({RolledBack})) ==>
        Same(old(files), active, old(calls)) && r.Done? && Some(r.value) == Current()
      ensures old(Loads() && active.Some? && !InPhase({RolledBack})) && !confirmed ==>
        r == Failed(NotConfirmed) && Same(old(files), active, old(calls))
      ensures !old(Loads()) ==> r.Failed? && Same(old(files), active, old(calls))
    {
      var loaded :- LoadActive();
      if loaded.None? {
        return Failed(NoTransaction);
      }
      var record := loaded.value;
      if record.phase == RolledBack {
        return Done(record);
      }
      if !confirmed {
        return Failed(NotConfirmed);
      }
      r := WithdrawLoaded(record);
    }

    method WithdrawLoaded(loaded: Record) returns (r: Reply<Record>)
      requires Points(loaded) && loaded.phase != RolledBack
      modifies `script, `files, `calls
      ensures (old(Valid()) ==> Valid()) && Advanced(loaded, old(files))
      ensures calls == old(calls) || files[loaded.id].record.value.phase in {RollingBack, RolledBack}
      ensures Only(old(calls), calls, false, loaded.id, RollingBack)
      ensures var steps := 3 + |UndoCalls(loaded.id, old(files)[loaded.id].owners - old(files)[loaded.id].undone)|;
        (r.Done? <==> GoesFor(old(script), steps)) && (r.Done? ==> script == Rest(old(script), steps))
      ensures r.Done? ==>
        && Points(r.value) && r.value == loaded.(phase := RolledBack)
        && files[r.value.id].owners <= files[r.value.id].undone
        && calls == old(calls) + UndoCalls(loaded.id, old(files)[loaded.id].owners - old(files)[loaded.id].undone)
    {
      hide OwnersAgree, Loadable, UndoCalls;
      var record := loaded;
      ghost var k := |UndoCalls(record.id, files[record.id].owners - files[record.id].undone)|;
      GoesForBoth(script, 1, 1);
      GoesForBoth(script, 2, k + 1);
      var _ :- Tick();
      RollsBack(record.phase);
      MoveAgrees(files[record.id], record, RollingBack);
      record :- MovePhase(record, RollingBack, None);
      r := UndoAll(record);
    }

    /** The runtime, the licensed file and the tool, in this order. */
    method UndoAll(record: Record) returns (r: Reply<Record>)
      requires Points(record) && record.phase == RollingBack
      modifies `script, `files, `calls
      ensures (old(Valid()) ==> Valid()) && Advanced(record, old(files))
      ensures Only(old(calls), calls, false, record.id, RollingBack)
      ensures var steps := 1 + |UndoCalls(record.id, old(files)[record.id].owners - old(files)[record.id].undone)|;
        (r.Done? <==> GoesFor(old(script), steps)) && (r.Done? ==> script == Rest(old(script), steps))
      ensures r.Done? ==> calls == old(calls) + UndoCalls(record.id, old(files)[record.id].owners - old(files)[record.id].undone)
      ensures r.Done? ==> Points(r.value) && r.value == record.(phase := RolledBack)
      ensures r.Done? ==> files[r.value.id].owners <= files[r.value.id].undone
    {
      hide OwnersAgree, Loadable, GoesOn;
      GoesOnSelf(record);
      GoesForBoth(script, |UndoCalls(record.id, files[record.id].owners - files[record.id].undone)|, 1);
      var _ :- UndoOwners(record);
      AllUndoneAgree(files[record.id], record);
      r := MovePhase(record, RolledBack, None);
      GoesOnTo(record, RolledBack);
    }

    method UndoOwners(record: Record) returns (r: Reply<()>)
      requires Points(record) && record.phase == RollingBack
      modifies `script, `files, `calls
      ensures (old(Valid()) ==> Valid()) && Points(record) && Elsewhere(old(files), files, record.id)
      ensures Only(old(calls), calls, false, record.id, RollingBack)
      ensures var steps := |UndoCalls(record.id, old(files)[record.id].owners - old(files)[record.id].undone)|;
        (r.Done? <==> GoesFor(old(script), steps)) && (r.Done? ==> script == Rest(old(script), steps))
      ensures r.Done? ==> calls == old(calls) + UndoCalls(record.id, old(files)[record.id].owners - old(files)[record.id].undone)
      ensures r.Done? ==> files[record.id].owners <= files[record.id].undone
    {
      hide OwnersAgree, Loadable;
      ghost var pending := files[record.id].owners - files[record.id].undone;
      GoesForBoth(script, |UndoCalls(record.id, pending - {Tool})|, |UndoCalls(record.id, {Tool} * pending)|);
      var _ :- UndoFirst(record);
      ThreeOwners(files[record.id]);
      var _ :- UndoOwner(record, Tool);
      ThreeOwners(files[record.id]);
      r := Done(());
    }

    method UndoFirst(record: Record) returns (r: Reply<()>)
      requires Points(record) && record.phase == RollingBack
      modifies `script, `files, `calls
      ensures (old(Valid()) ==> Valid()) && Points(record) && Elsewhere(old(files), files, record.id)
      ensures Only(old(calls), calls, false, record.id, RollingBack)
      ensures var steps := |UndoCalls(record.id, old(files)[record.id].owners - old(files)[record.id].undone - {Tool})|;
        (r.Done? <==> GoesFor(old(script), steps)) && (r.Done? ==> script == Rest(old(script), steps))
      ensures r.Done? ==>
        && calls == old(calls) + UndoCalls(record.id, old(files)[record.id].owners - old(files)[record.id].undone - {Tool})
        && files[record.id] == old(files)[record.id].(undone := files[record.id].undone)
        && {Runtime, LicensedFile} * files[record.id].owners <= files[record.id].undone
        && (Tool in files[record.id].undone <==> Tool in old(files)[record.id].undone)
    {
      hide OwnersAgree, Loadable;
      ghost var pending := files[record.id].owners - files[record.id].undone;
      GoesForBoth(script, |UndoCalls(record.id, {Runtime} * pending)|, |UndoCalls(record.id, {LicensedFile} * pending)|);
      var _ :- UndoOwner(record, Runtime);
      r := UndoOwner(record, LicensedFile);
    }

    ghost function Now(): Shot
      reads this
    {
      Shot(files, active, script, drawn, calls)
    }

    /** Any commands, each killed or failed anywhere: every state that is left behind is one
        that the next load accepts, the owners of every transaction are those of its phase,
        which only advances, and no owner of a transaction is installed once its rollback began. */
    method RunAll(commands: seq<Command>) returns (ghost shots: seq<Shot>)
      requires Valid() && Lucky()
      modifies this
      ensures |shots| == |commands| + 1 && shots[0] == old(Now()) && shots[|commands|] == Now()
      ensures forall i | 0 <= i < |commands| :: Enacted(shots[i], shots[i + 1], commands[i], manifest, draw)
      ensures Valid() && Lucky() && AllGoOn(old(files), files)
      ensures old(calls) <= calls && InOrder(old(files), calls[|old(calls)|..])
    {
      shots := [Now()];
      for i := 0 to |commands|
        invariant |shots| == i + 1 && shots[0] == old(Now()) && shots[i] == Now()
        invariant forall k | 0 <= k < i :: Enacted(shots[k], shots[k + 1], commands[k], manifest, draw)
        invariant Valid() && Lucky() && AllGoOn(old(files), files) && old(calls) <= calls
        invariant InOrder(old(files), calls[|old(calls)|..]) && UndoneBehind(files, calls[|old(calls)|..])
      {
        hide Enacted, Valid, Lucky, AllGoOn, InOrder, UndoneBehind, ForCommand;
        ghost var before, made := files, calls;
        RunCommand(commands[i]);
        shots := shots + [Now()];
        CallsInOrder(old(files), before, files, old(calls), made, calls, Current());
        AllGoOnOn(old(files), before, files);
      }
    }

    method RunCommand(command: Command)
      requires Valid() && Lucky()
      modifies this
      ensures Valid() && Lucky() && AllGoOn(old(files), files)
      ensures ForCommand(old(calls), calls, Current()) && (Current().Some? ==> Points(Current().value))
      ensures Enacted(old(Now()), Now(), command, manifest, draw)
    {
      match command
      case Prepare(plan, confirmed) =>
        var _ := PrepareComposed(plan, confirmed);
      case Finish(plan, confirmed) =>
        var _ := FinishComposed(plan, confirmed);
      case RollBack(confirmed) =>
        var _ := RollbackComposed(confirmed);
    }

    /** Once the active transaction cannot be loaded, every command is refused and nothing changes again. */
    method StrandedForGood(commands: seq<Command>) returns (replies: seq<Reply<Record>>)
      requires !Loads()
      modifies this
      ensures |replies| == |commands| && forall i | 0 <= i < |replies| :: replies[i].Failed?
      ensures Same(old(files), old(active), old(calls)) && !Loads()
    {
      replies := [];
      for i := 0 to |commands|
        invariant |replies| == i && forall k | 0 <= k < i :: replies[k].Failed?
        invariant Same(old(files), old(active), old(calls)) && !Loads()
      {
        var reply: Reply<Record>;
        match commands[i] {
          case Prepare(plan, confirmed) =>
            reply := PrepareComposed(plan, confirmed);
          case Finish(plan, confirmed) =>
            reply := FinishComposed(plan, confirmed);
          case RollBack(confirmed) =>
            reply := RollbackComposed(confirmed);
        }
        replies := replies + [reply];
      }
    }
  }

  ghost predicate AllAgree(files: map<Token, Files>) {
    forall t | t in files :: OwnersAgree(files[t])
  }

  /** The files of a transaction that was written so far. */
  ghost predicate WrittenFor(before: map<Token, Files>, after: map<Token, Files>, token: Token, plan: Plan, record: Record,
                             written: Written)
  {
    && Elsewhere(before, after, token)
    && (written == Untouched ==> after == before)
    && (written != Untouched ==>
          && token in after
          && var f := if token in before then before[token] else EMPTY;
             after[token] == f.(preparePlan := if written == DirectoryMade then f.preparePlan else Some(plan),
                                record := if written == RecordWritten then Some(record) else f.record))
  }

  lemma WrittenThere(before: map<Token, Files>, after: map<Token, Files>, token: Token, plan: Plan, record: Record,
                     written: Written)
    requires WrittenFor(before, after, token, plan, record, written)
    ensures Elsewhere(before, after, token)
    ensures written == RecordWritten ==>
      && token in after && after[token].record == Some(record)
      && (after[token].undone != {} <==> token in before && before[token].undone != {})
  {
  }

  lemma WrittenLoads(before: map<Token, Files>, after: map<Token, Files>, active: Option<Token>, token: Token, plan: Plan,
                     record: Record, manifest: nat, written: Written)
    requires WrittenFor(before, after, token, plan, record, written) && written != Pointed
    requires record == NewRecord(token, manifest, plan)
    requires Loadable(before, active, manifest) && AllAgree(before)
    ensures Loadable(after, active, manifest) <==> !Mismatched(before, active, token, plan, written)
    ensures AllAgree(after) <==> !Inherited(before, token, written)
    ensures written == RecordWritten ==> Loadable(after, Some(token), manifest)
  {
    if written == Untouched {
    } else if Inherited(before, token, written) {
      assert !OwnersAgree(after[token]);
    } else {
      assert OwnersAgree(after[token]);
    }
  }

  lemma StillDisagrees(before: map<Token, Files>, after: map<Token, Files>, token: Token)
    requires token in before && token in after && Elsewhere(before, after, token)
    requires after[token].undone == before[token].undone
    requires before[token].record.Some? && before[token].record.value.phase in {Preparing, AwaitingSteamPrefix}
    requires after[token].record.Some? && after[token].record.value.phase in {Preparing, AwaitingSteamPrefix}
    ensures before[token].undone != {} ==> !AllAgree(before) && !AllAgree(after)
  {
    if before[token].undone != {} {
      assert !OwnersAgree(before[token]);
      assert !OwnersAgree(after[token]);
    }
  }

  /** The installs of a Finish: a runtime that is there is not installed again. */
  ghost function InstallCalls(token: Token, owners: set<Owner>): seq<Call> {
    [Install(LicensedFile, token, InstallingFinish)]
    + if Runtime in owners then [] else [Install(Runtime, token, InstallingFinish)]
  }

  /** The withdrawals of a rollback: the runtime, the licensed file, and the tool. */
  ghost function UndoCalls(token: Token, pending: set<Owner>): seq<Call> {
    (if Runtime in pending then [Undo(Runtime, token, RollingBack)] else [])
    + (if LicensedFile in pending then [Undo(LicensedFile, token, RollingBack)] else [])
    + if Tool in pending then [Undo(Tool, token, RollingBack)] else []
  }

  const EMPTY := Files(None, None, {}, {}, {})

  function NewRecord(token: Token, manifest: nat, plan: Plan): Record {
    Record(token, manifest, plan, None, Preparing)
  }

  /** Nothing changed but the files of one transaction, and no file of another is lost. */
  ghost predicate Elsewhere(before: map<Token, Files>, after: map<Token, Files>, id: Token) {
    && before.Keys <= after.Keys <= before.Keys + {id}
    && forall other | other in before && other != id :: after[other] == before[other]
  }

  /** The new plan stands beside the record of an old transaction, which is the active one. */
  ghost predicate Mismatched(files: map<Token, Files>, active: Option<Token>, token: Token, plan: Plan, written: Written) {
    && written == PlanWritten && active == Some(token) && token in files && files[token].record.Some?
    && files[token].record.value.prepare != plan
  }

  /** The new record stands over owners that were withdrawn. */
  ghost predicate Inherited(files: map<Token, Files>, token: Token, written: Written) {
    (written == RecordWritten || written == Pointed) && token in files && files[token].undone != {}
  }

  lemma AllGoOnOn(a: map<Token, Files>, b: map<Token, Files>, c: map<Token, Files>)
    requires AllGoOn(a, b) && AllGoOn(b, c)
    ensures AllGoOn(a, c)
  {
  }

  /** The runtime left a journal, and was not installed. */
  ghost predicate LeftMidway(owners: set<Owner>, installed: set<Owner>) {
    Runtime in owners && Runtime !in installed
  }

  /** With every owner installed, the transaction is ready. */
  lemma ReadyAgrees(f: Files, record: Record)
    requires f.record == Some(record) && record.phase == InstallingFinish && {LicensedFile, Runtime} <= f.installed
    ensures OwnersAgree(f) ==> OwnersAgree(f.(record := Some(record.(phase := ReadyToAttempt))))
  {
    if OwnersAgree(f) {
      forall owner | owner in f.installed ensures owner in {Tool, LicensedFile, Runtime} {
        assert owner == Tool || owner == LicensedFile || owner == Runtime;
      }
      assert f.installed == {Tool, LicensedFile, Runtime};
    }
  }

  lemma ThreeOwners(f: Files)
    ensures {Runtime, LicensedFile} * f.owners <= f.undone ==> f.owners - {Tool} <= f.undone
    ensures {Runtime, LicensedFile, Tool} * f.owners <= f.undone ==> f.owners <= f.undone
  {
    forall owner | owner in f.owners ensures owner in {Runtime, LicensedFile, Tool} {
      assert owner == Tool || owner == LicensedFile || owner == Runtime;
    }
  }

  /** An install may begin after Prepare, and a rollback at any time before the end. */
  lemma MoveAgrees(f: Files, record: Record, phase: Phase)
    requires f.record == Some(record) && Allowed(record.phase, phase)
    requires phase == RollingBack || (record.phase == AwaitingSteamPrefix && phase == InstallingFinish)
    ensures OwnersAgree(f) ==> OwnersAgree(f.(record := Some(record.(phase := phase))))
  {
  }

  lemma RollsBack(phase: Phase)
    ensures phase != RolledBack <==> Allowed(phase, RollingBack)
  {
  }

  /** With every owner withdrawn, the transaction is over. */
  lemma AllUndoneAgree(f: Files, record: Record)
    requires f.record == Some(record) && record.phase == RollingBack && f.owners <= f.undone
    ensures OwnersAgree(f) ==> OwnersAgree(f.(record := Some(record.(phase := RolledBack))))
  {
  }

  lemma GoesOnSelf(record: Record)
    ensures GoesOn(record, record)
  {
  }

  lemma GoesOnTo(record: Record, phase: Phase)
    requires Allowed(record.phase, phase)
    ensures GoesOn(record, record.(phase := phase))
  {
  }

  /** The transaction is being withdrawn, or was. */
  ghost predicate Withdrawn(files: map<Token, Files>, token: Token) {
    token in files && files[token].record.Some? && files[token].record.value.phase in {RollingBack, RolledBack}
  }

  /** Every call was made in the phase that it belongs to, and none of a transaction's owners is
      installed after one of them was withdrawn, or after its rollback had begun before. */
  ghost predicate InOrder(files: map<Token, Files>, calls: seq<Call>) {
    && (forall k | 0 <= k < |calls| ::
          if calls[k].Undo? then calls[k].phase == RollingBack
          else calls[k].phase in {Preparing, InstallingFinish} && !Withdrawn(files, calls[k].token))
    && forall i, k | 0 <= i < k < |calls| && calls[i].Undo? && calls[k].Install? :: calls[i].token != calls[k].token
  }

  ghost predicate UndoneBehind(files: map<Token, Files>, calls: seq<Call>) {
    forall k | 0 <= k < |calls| && calls[k].Undo? :: Withdrawn(files, calls[k].token)
  }

  ghost predicate ForCommand(before: seq<Call>, after: seq<Call>, record: Option<Record>) {
    || ForActive(before, after, record, {Preparing, AwaitingSteamPrefix}, true, Preparing)
    || ForActive(before, after, record, {InstallingFinish, ReadyToAttempt}, true, InstallingFinish)
    || ForActive(before, after, record, {RollingBack, RolledBack}, false, RollingBack)
  }

  lemma StaysWithdrawn(before: map<Token, Files>, after: map<Token, Files>, token: Token)
    requires AllGoOn(before, after) && Withdrawn(before, token)
    ensures Withdrawn(after, token)
  {
  }

  lemma CallsInOrder(first: map<Token, Files>, before: map<Token, Files>, after: map<Token, Files>,
                     start: seq<Call>, made: seq<Call>, calls: seq<Call>, record: Option<Record>)
    requires AllGoOn(first, before) && AllGoOn(before, after) && start <= made && ForCommand(made, calls, record)
    requires InOrder(first, made[|start|..]) && UndoneBehind(before, made[|start|..])
    requires record.Some? ==> record.value.id in after && after[record.value.id].record == record
    ensures start <= calls && InOrder(first, calls[|start|..]) && UndoneBehind(after, calls[|start|..])
  {
    hide AllGoOn, GoesOn;
    AllGoOnOn(first, before, after);
    var earlier, all := made[|start|..], calls[|start|..];
    assert earlier <= all;
    forall k | 0 <= k < |earlier| && earlier[k].Undo? ensures Withdrawn(after, earlier[k].token) {
      StaysWithdrawn(before, after, earlier[k].token);
    }
    forall k | |earlier| <= k < |all|
      ensures all[k] == calls[|start| + k] && record.Some? && all[k].token == record.value.id
      ensures all[k].Install? ==> !Withdrawn(after, all[k].token) && !Withdrawn(first, all[k].token)
    {
      if all[k].Install? && Withdrawn(first, all[k].token) {
        StaysWithdrawn(first, after, all[k].token);
      }
    }
  }

  /** The whole of a setup at one moment. */
  datatype Shot = Shot(files: map<Token, Files>, active: Option<Token>, script: seq<Event>, drawn: nat, calls: seq<Call>)

  /** A confirmed command in a phase that fits does what it is for, when its steps succeed. */
  ghost predicate Enacted(a: Shot, b: Shot, command: Command, manifest: nat, draw: nat -> Token) {
    var before, after := Active(a.files, a.active), Active(b.files, b.active);
    Loadable(a.files, a.active, manifest) ==>
      match command
      case Prepare(plan, confirmed) =>
        confirmed && (before.None? || before.value.phase == RolledBack) && GoesFor(a.script, 7) ==>
          && b.active == Some(draw(a.drawn)) && after == Some(NewRecord(draw(a.drawn), manifest, plan).(phase := AwaitingSteamPrefix))
          && b.calls == a.calls + [Install(Tool, draw(a.drawn), Preparing)] && b.script == Rest(a.script, 7)
      case Finish(plan, confirmed) =>
        confirmed && before.Some? && before.value.phase == AwaitingSteamPrefix ==>
          var f := a.files[before.value.id];
          var steps := 5 + |InstallCalls(before.value.id, f.owners)|;
          !LeftMidway(f.owners, f.installed) && GoesFor(a.script, steps) ==>
            && after == Some(before.value.(phase := ReadyToAttempt, finish := Some(plan)))
            && b.calls == a.calls + InstallCalls(before.value.id, f.owners) && b.script == Rest(a.script, steps)
      case RollBack(confirmed) =>
        confirmed && before.Some? && before.value.phase != RolledBack ==>
          var f := a.files[before.value.id];
          var steps := 3 + |UndoCalls(before.value.id, f.owners - f.undone)|;
          GoesFor(a.script, steps) ==>
            && after == Some(before.value.(phase := RolledBack))
            && b.calls == a.calls + UndoCalls(before.value.id, f.owners - f.undone) && b.script == Rest(a.script, steps)
  }

  /** A run that strands: a transaction is prepared and rolled back, its token comes up again
      with another plan, and the process dies between the plan and the record. */
  method StrandedRun(token: Token, plan: Plan, other: Plan, manifest: nat, commands: seq<Command>)
    returns (s: Setup, replies: seq<Reply<Record>>)
    requires plan != other
    ensures fresh(s) && !s.Loads() && s.active == Some(token)
    ensures |replies| == |commands| && forall i | 0 <= i < |replies| :: replies[i].Failed?
  {
    hide Loadable, OwnersAgree;
    s := new Setup([], (i: nat) => token, manifest);
    NoneLoads(s);
    var r := s.PrepareComposed(plan, true);
    r := s.RollbackComposed(true);
    s.script := [Go, Go, Kill(Nothing)];
    r := s.PrepareComposed(other, true);
    replies := s.StrandedForGood(commands);
  }

  lemma NoneLoads(s: Setup)
    requires s.active.None?
    ensures s.Loads()
  {
  }
}

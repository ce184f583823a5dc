/** The directory of all transactions: creation in a staging directory, recovery
    of what a dead process left there, and transitions of what is durable. */
module StateRoot {
  import opened Outcomes
  import opened BootstrapState

  datatype Leaf = StateFile | TemporaryFile(token: nat) | OtherFile(name: string)

  /** A private file, written whole or cut short. */
  datatype Content = Partial | Whole(state: State)

  /** The files in a staging directory. */
  type Staging = map<Leaf, Content>

  datatype Event = Proceed | Kill

  datatype RootError =
    | Refused(reason: StateError)
    | UnsafeContents
    | InvalidState
    | IdsDiffer
    | Conflict
    | ManyUnfinished
    | UnfinishedExists
    | IdCollision
    | NoIdReserved
    | NoTransaction

  type Reply<+T> = Outcome<T, RootError>

  datatype Command =
    | Create(manifest: Digest)
    | Load
    | Change(caller: State, expected: Phase, target: Phase, update: Update)

  ghost predicate Unkilled(script: seq<Event>) {
    Kill !in script
  }

  // What the directory can hold ---------------------------------------------------------------------

  /** A temporary file was made, and perhaps written. */
  ghost predicate Begun(dir: Staging) {
    exists token, content :: dir == map[TemporaryFile(token) := content]
  }

  /** The state file is in place. */
  ghost predicate Complete(dir: Staging, id: Id) {
    && dir.Keys == {StateFile}
    && dir[StateFile].Whole? && dir[StateFile].state.id == id && dir[StateFile].state.phase == New
  }

  ghost predicate Unfinished(durable: map<Id, State>, id: Id) {
    id in durable && !Terminal(durable[id].phase)
  }

  ghost predicate Written(staging: map<Id, Staging>, id: Id) {
    id in staging && StateFile in staging[id]
  }

  /** Every directory holds what some moment of its creation left. */
  ghost predicate Shaped(durable: map<Id, State>, staging: map<Id, Staging>) {
    && (forall id | id in durable :: durable[id].id == id)
    && (forall id | id in staging :: staging[id] == map[] || Begun(staging[id]) || Complete(staging[id], id))
  }

  /** At most one transaction is unfinished, durable or not. */
  ghost predicate Single(durable: map<Id, State>, staging: map<Id, Staging>) {
    && (forall a, b | Unfinished(durable, a) && Unfinished(durable, b) :: a == b)
    && (forall a, b | Written(staging, a) && Written(staging, b) :: a == b)
    && (forall a, b | Unfinished(durable, a) && Written(staging, b) :: false)
  }

  /** No written staging directory has the id of a durable transaction. */
  ghost predicate Clear(durable: map<Id, State>, staging: map<Id, Staging>) {
    forall id | Written(staging, id) :: id !in durable
  }

  /** Nothing durable is lost, and every transaction has one history. */
  ghost predicate Moves(before: map<Id, State>, after: map<Id, State>) {
    forall id | id in before :: id in after && Reaches(before[id], after[id])
  }

  lemma SingleCounts(durable: map<Id, State>, staging: map<Id, Staging>)
    requires Single(durable, staging)
    ensures |set id | id in durable && Unfinished(durable, id)| + |set id | id in staging && Written(staging, id)| <= 1
  {
    AtMostOne(set id | id in durable && Unfinished(durable, id));
    AtMostOne(set id | id in staging && Written(staging, id));
    if id :| id in durable && Unfinished(durable, id) {
      assert (set b | b in staging && Written(staging, b)) == {};
    } else {
      assert (set a | a in durable && Unfinished(durable, a)) == {};
    }
  }

  lemma AtMostOne(ids: set<Id>)
    requires forall a, b | a in ids && b in ids :: a == b
    ensures |ids| <= 1
  {
    if id :| id in ids {
      assert ids == {id};
    }
  }

  lemma MovesOn(a: map<Id, State>, b: map<Id, State>, c: map<Id, State>)
    requires Moves(a, b) && Moves(b, c)
    ensures Moves(a, c)
  {
    hide Reaches;
    forall id | id in a ensures id in c && Reaches(a[id], c[id]) {
      ReachesOn(a[id], b[id], c[id]);
    }
  }

  lemma OnlyTheseContents(durable: map<Id, State>, staging: map<Id, Staging>, id: Id)
    requires Shaped(durable, staging) && id in staging
    ensures var dir := staging[id];
      dir.Keys == {} || Complete(dir, id)
      || (StateFile !in dir && exists token :: dir.Keys == {TemporaryFile(token)})
  {
    if Begun(staging[id]) {
      var token, content :| staging[id] == map[TemporaryFile(token) := content];
      assert staging[id].Keys == {TemporaryFile(token)};
    }
  }

  /** The state of a dead process is published: nothing is unfinished twice. */
  lemma Published(durable: map<Id, State>, staging: map<Id, Staging>, id: Id)
    requires Shaped(durable, staging) && Single(durable, staging)
    requires id in staging && Complete(staging[id], id) && id !in durable
    ensures var after := durable[id := staging[id][StateFile].state];
      Shaped(after, staging - {id}) && Single(after, staging - {id}) && Moves(durable, after)
      && (Clear(durable, staging) ==> Clear(after, staging - {id}))
  {
    hide Reaches;
    StaysPut(durable);
    assert Written(staging, id);
    var after, rest := durable[id := staging[id][StateFile].state], staging - {id};
    assert forall a :: Unfinished(after, a) <==> a == id || Unfinished(durable, a);
    assert forall b :: Written(rest, b) <==> b != id && Written(staging, b);
  }

  class Root {
    var durable: map<Id, State>
    var staging: map<Id, Staging>
    var script: seq<Event>
    var drawn: nat
    const draw: nat -> Id

    constructor (script: seq<Event>, draw: nat -> Id)
      ensures durable == map[] && staging == map[]
      ensures this.script == script && this.draw == draw && drawn == 0
      ensures Shaped(durable, staging) && Single(durable, staging) && Clear(durable, staging)
    {
      durable, staging, drawn := map[], map[], 0;
      this.script, this.draw := script, draw;
    }

    method Tick() returns (r: Reply<()>)
      modifies `script
      ensures script == if old(script) == [] then [] else old(script)[1..]
      ensures !r.Failed? && (r.Killed? <==> old(script) != [] && old(script)[0] == Kill)
      ensures Unkilled(old(script)) ==> r.Done? && Unkilled(script)
    {
      if script == [] {
        return Done(());
      }
      var event := script[0];
      script := script[1..];
      r := if event == Kill then Killed else Done(());
    }

    // Recovery ----------------------------------------------------------------------------------------

    /** A staging directory of a dead process: published when its state was written. */
    method RecoverStaging(id: Id) returns (r: Reply<Option<State>>)
      requires Shaped(durable, staging) && Single(durable, staging) && id in staging
      modifies `script, `durable, `staging
      ensures Shaped(durable, staging) && Single(durable, staging) && Moves(old(durable), durable)
      ensures old(Clear(durable, staging)) ==> Clear(durable, staging)
      ensures !(r.Done? && r.value.Some?) ==> durable == old(durable) && staging == old(staging)
      ensures r.Failed? ==> r.error == Conflict && Written(staging, id) && id in durable
      ensures r.Done? && r.value.None? ==> !Written(staging, id)
      ensures r.Done? && r.value.Some? ==>
        && old(Written(staging, id)) && id !in old(durable) && r.value.value.id == id && r.value.value.phase == New
        && durable == old(durable)[id := r.value.value] && staging == old(staging) - {id}
      ensures Unkilled(old(script)) ==> !r.Killed? && Unkilled(script)
    {
      hide Shaped, Single, Clear, Moves;
      StaysPut(durable);
      var dir := staging[id];
      OnlyTheseContents(durable, staging, id);
      if dir.Keys == {} {
        return Done(None);
      }
      var leaf :| leaf in dir.Keys;
      if dir.Keys == {StateFile} {
        if dir[StateFile].Partial? {
          return Failed(InvalidState);
        }
        var state := dir[StateFile].state;
        if state.id != id {
          return Failed(IdsDiffer);
        }
        var _ :- Tick();
        if id in durable {
          return Failed(Conflict);
        }
        Published(durable, staging, id);
        durable := durable[id := state];
        staging := staging - {id};
        r := Done(Some(state));
      } else if dir.Keys == {leaf} && leaf.TemporaryFile? {
        r := Done(None);
      } else {
        r := Failed(UnsafeContents);
      }
    }

    /** Find the unfinished transaction; those left in staging are published first. */
    method LoadUnfinished() returns (r: Reply<Option<State>>)
      requires Shaped(durable, staging) && Single(durable, staging)
      modifies `script, `durable, `staging
      ensures Shaped(durable, staging) && Single(durable, staging) && Moves(old(durable), durable)
      ensures old(Clear(durable, staging)) ==> Clear(durable, staging)
      ensures durable.Keys + staging.Keys == old(durable).Keys + old(staging).Keys
      ensures r.Done? && r.value.Some? ==>
        var id := r.value.value.id;
        Unfinished(durable, id) && durable[id] == r.value.value
      ensures r.Done? && r.value.Some? ==> old(!Idle(durable, staging))
      ensures r.Done? && r.value.None? ==>
        durable == old(durable) && staging == old(staging) && forall id :: !Unfinished(durable, id)
      ensures r.Done? ==> forall id :: !Written(staging, id)
      ensures r.Failed? ==> r.error == Conflict && !Clear(durable, staging)
      ensures Unkilled(old(script)) ==> !r.Killed? && Unkilled(script)
      ensures Unkilled(old(script)) ==> (r.Done? <==> old(Clear(durable, staging)))
    {
      hide Shaped, Single, Moves, Unkilled, Begun, Complete, Follows;
      StaysPut(durable);
      ghost var durable0, staging0 := durable, staging;
      var listed := durable.Keys;
      var found: set<Id> := {};
      var left := staging.Keys;
      while left != {}
        invariant Shaped(durable, staging) && Single(durable, staging) && Moves(durable0, durable)
        invariant Clear(durable0, staging0) ==> Clear(durable, staging)
        invariant left <= staging.Keys && forall id | id in staging && id !in left :: !Written(staging, id)
        invariant found !! listed && found + listed == durable.Keys && listed == durable0.Keys
        invariant found <= staging0.Keys
        invariant staging == staging0 - found && (found == {} ==> durable == durable0)
        invariant forall id | id in found :: durable[id].phase == New && Written(staging0, id)
        invariant Unkilled(old(script)) ==> Unkilled(script)
        decreases left
      {
        var id :| id in left;
        ghost var before := durable;
        var state :- RecoverStaging(id);
        MovesOn(durable0, before, durable);
        if state.Some? {
          found := found + {id};
        }
        left := left - {id};
      }
      forall id ensures !Written(staging, id) && (Written(staging0, id) ==> id in found) {
        assert Written(staging0, id) && id !in found ==> Written(staging, id);
      }
      forall id | id in found ensures Unfinished(durable, id) {
      }
      r := LoadDurable(listed + found);
    }

    /** The unfinished one of the durable transactions. */
    method LoadDurable(names: set<Id>) returns (r: Reply<Option<State>>)
      requires Shaped(durable, staging) && Single(durable, staging) && names == durable.Keys
      ensures !r.Killed? && !r.Failed?
      ensures r.value.Some? ==>
        var id := r.value.value.id;
        Unfinished(durable, id) && durable[id] == r.value.value
      ensures r.value.None? ==> forall id :: !Unfinished(durable, id)
    {
      var states: set<Id> := {};
      var left := names;
      while left != {}
        invariant left <= names && forall id :: id in states <==> id in names - left && Unfinished(durable, id)
        decreases left
      {
        var id :| id in left;
        if durable[id].id != id {
          return Failed(IdsDiffer);
        }
        if !Terminal(durable[id].phase) {
          states := states + {id};
        }
        left := left - {id};
      }
      if states == {} {
        return Done(None);
      }
      var id :| id in states;
      if states != {id} {
        return Failed(ManyUnfinished);
      }
      r := Done(Some(durable[id]));
    }

    // Creation ----------------------------------------------------------------------------------------

    /** Write the state file of a new staging directory. */
    method WriteState(id: Id, state: State) returns (r: Reply<()>)
      requires id in staging && staging[id] == map[] && state.id == id && state.phase == New
      modifies `script, `staging, `drawn
      ensures drawn == old(drawn) + 1
      ensures id in staging && staging == old(staging)[id := staging[id]]
      ensures staging[id] == map[] || Begun(staging[id]) || Complete(staging[id], id)
      ensures r.Killed? ==>
        && |script| < |old(script)| <= |script| + 3
        && staging[id] == (match |old(script)| - |script|
                           case 1 => map[]
                           case 2 => map[TemporaryFile(draw(old(drawn))) := Partial]
                           case _ => map[TemporaryFile(draw(old(drawn))) := Whole(state)])
      ensures r.Done? ==> id in staging && staging[id] == map[StateFile := Whole(state)]
      ensures !r.Failed? && (Unkilled(old(script)) ==> r.Done? && Unkilled(script))
    {
      hide Unkilled;
      ghost var before := staging;
      assert staging == before[id := map[]];
      var token := draw(drawn);
      drawn := drawn + 1;
      var _ :- Tick();
      var dir: Staging := map[TemporaryFile(token) := Partial];
      staging := staging[id := dir];
      assert Begun(dir) && staging == before[id := dir];
      var _ :- Tick();
      dir := map[TemporaryFile(token) := Whole(state)];
      staging := staging[id := dir];
      assert Begun(dir) && staging == before[id := dir];
      var _ :- Tick();
      dir := map[StateFile := Whole(state)];
      staging := staging[id := dir];
      assert Complete(dir, id) && staging == before[id := dir];
      r := Done(());
    }

    /** Create the sole unfinished transaction.  An id that was drawn before is the
        one thing that can spoil the directory. */
    method CreateTransaction(manifest: Digest) returns (r: Reply<State>)
      requires Shaped(durable, staging) && Single(durable, staging)
      modifies this
      ensures Shaped(durable, staging) && Single(durable, staging) && Moves(old(durable), durable)
      ensures old(Clear(durable, staging)) ==>
        Clear(durable, staging) || exists id :: id in old(durable) && Drawn(draw, id, old(drawn), drawn)
      ensures forall id | id in durable || id in staging ::
        id in old(durable) || id in old(staging) || Drawn(draw, id, old(drawn), drawn)
      ensures r.Done? ==>
        && r.value.phase == New && r.value.manifest == manifest && r.value.boundaries == []
        && r.value.id !in old(durable) && durable == old(durable)[r.value.id := r.value] && staging == old(staging)
        && forall id | id in old(durable) :: Terminal(durable[id].phase)
      ensures r == Failed(UnfinishedExists) ==> exists id :: Unfinished(durable, id)
      ensures r == Failed(IdCollision) || r == Failed(Conflict) ==> !Clear(durable, staging)
      ensures r.Failed? ==> r.error in {UnfinishedExists, IdCollision, Conflict, NoIdReserved}
      ensures drawn >= old(drawn) && (Unkilled(old(script)) ==> !r.Killed? && Unkilled(script))
      ensures Unkilled(old(script)) && old(Idle(durable, staging)) && draw(old(drawn)) !in old(staging) ==>
        (r.Done? <==> draw(old(drawn)) !in old(durable)) && (r.Failed? ==> r.error == IdCollision)
    {
      hide Shaped, Single, Clear, Moves, Unkilled, Begun, Complete, Drawn, Written;
      IdleIsClear(durable, staging);
      var existing :- LoadUnfinished();
      if existing.Some? {
        return Failed(UnfinishedExists);
      }
      ghost var first := drawn;
      var id :- DrawId();
      ghost var last := drawn - 1;
      r := PublishNew(id, manifest);
      WasDrawn(draw, last, first, drawn);
    }

    /** Draw ids until one is free in the staging area. */
    method DrawId() returns (r: Reply<Id>)
      modifies `script, `drawn
      ensures drawn >= old(drawn) && (Unkilled(old(script)) ==> !r.Killed? && Unkilled(script))
      ensures r.Done? ==> r.value !in staging && old(drawn) < drawn <= old(drawn) + 100 && r.value == draw(drawn - 1)
      ensures r.Done? ==> forall i | old(drawn) <= i < drawn - 1 :: draw(i) in staging
      ensures r.Failed? ==>
        r.error == NoIdReserved && drawn == old(drawn) + 100 && forall i | old(drawn) <= i < drawn :: draw(i) in staging
    {
      hide Unkilled;
      for attempt := 0 to 100
        invariant drawn >= old(drawn) && (Unkilled(old(script)) ==> Unkilled(script))
        invariant drawn == old(drawn) + attempt
        invariant forall i | old(drawn) <= i < drawn :: draw(i) in staging
      {
        var id := draw(drawn);
        drawn := drawn + 1;
        var _ :- Tick();
        if id !in staging {
          return Done(id);
        }
      }
      r := Failed(NoIdReserved);
    }

    method PublishNew(id: Id, manifest: Digest) returns (r: Reply<State>)
      requires Shaped(durable, staging) && id !in staging
      requires forall i :: !Written(staging, i) && !Unfinished(durable, i)
      modifies this
      ensures Shaped(durable, staging) && Single(durable, staging) && Moves(old(durable), durable)
      ensures id !in old(durable) ==> Clear(durable, staging)
      ensures drawn >= old(drawn) && (Unkilled(old(script)) ==> Unkilled(script))
      ensures durable.Keys + staging.Keys <= old(durable).Keys + old(staging).Keys + {id}
      ensures Unkilled(old(script)) ==> (r.Done? <==> id !in old(durable))
      ensures r.Done? ==>
        && r.value.phase == New && r.value.manifest == manifest && r.value.boundaries == [] && r.value.id == id
        && id !in old(durable) && durable == old(durable)[id := r.value] && staging == old(staging)
      ensures r.Failed? ==> r.error == IdCollision && !Clear(durable, staging)
      ensures Unkilled(old(script)) ==> !r.Killed?
    {
      hide Shaped, Single, Clear, Moves, Unkilled, Begun, Complete, Written, Unfinished;
      StaysPut(durable);
      ghost var before := staging;
      staging := staging[id := map[]];
      FirstStaged(durable, before, id, map[]);
      var state := State(id, manifest, New, [], None, None, None, None);
      var written := WriteState(id, state);
      assert staging == before[id := staging[id]];
      FirstStaged(durable, before, id, staging[id]);
      var _ :- written;
      var _ :- Tick();
      NowComplete(id, state);
      if id in durable {
        NotClear(durable, staging, id);
        return Failed(IdCollision);
      }
      Published(durable, staging, id);
      durable := durable[id := state];
      staging := staging - {id};
      r := Done(state);
    }

    /** Take one step with one transaction, for a caller with a copy of its state. */
    method Transition(caller: State, expected: Phase, target: Phase, update: Update) returns (r: Reply<State>)
      requires Shaped(durable, staging) && Single(durable, staging)
      modifies `script, `durable
      ensures Shaped(durable, staging) && Single(durable, staging) && Moves(old(durable), durable)
      ensures durable.Keys == old(durable).Keys
      ensures r.Done? ==>
        && caller.id in old(durable) && old(durable)[caller.id] == caller
        && Follows(caller, r.value) && Transitioned(caller, caller, expected, target, update) == Ok(r.value)
        && durable == old(durable)[caller.id := r.value]
      ensures !r.Done? ==> durable == old(durable)
      ensures r.Failed? ==> r.error.Refused? || r.error == NoTransaction
      ensures Unkilled(old(script)) ==> !r.Killed?
      ensures Unkilled(old(script)) && caller.id in old(durable) ==>
        (r.Done? <==> Transitioned(old(durable)[caller.id], caller, expected, target, update).Ok?)
    {
      hide Shaped, Single, Moves, Unkilled, Follows;
      StaysPut(durable);
      if caller.id !in durable {
        return Failed(NoTransaction);
      }
      var next := Transitioned(durable[caller.id], caller, expected, target, update);
      if next.Err? {
        return Failed(Refused(next.error));
      }
      TransitionFollows(durable[caller.id], caller, expected, target, update);
      var _ :- Tick();
      OneStep(durable, staging, caller.id, next.value);
      durable := durable[caller.id := next.value];
      r := Done(next.value);
    }

    /** Any calls, by any processes with copies of any age, each of which may be killed:
        one history for every transaction, and never two that are unfinished. */
    method RunAll(commands: seq<Command>) returns (errors: seq<Option<RootError>>)
      requires Shaped(durable, staging) && Single(durable, staging)
      modifies this
      ensures Shaped(durable, staging) && Single(durable, staging) && Moves(old(durable), durable)
      ensures |errors| == |commands|
      ensures forall e | Some(e) in errors ::
        e.Refused? || e in {UnfinishedExists, NoTransaction, NoIdReserved, IdCollision, Conflict}
      ensures old(Clear(durable, staging)) && old(Unused(draw, drawn, durable, staging)) && Injective(draw) ==>
        && Clear(durable, staging) && Unused(draw, drawn, durable, staging)
        && Some(IdCollision) !in errors && Some(Conflict) !in errors
    {
      hide Shaped, Single, Clear, Moves, Unkilled, Unused, Drawn, Injective;
      errors := [];
      StaysPut(durable);
      for i := 0 to |commands|
        invariant Shaped(durable, staging) && Single(durable, staging) && Moves(old(durable), durable)
        invariant |errors| == i
        invariant forall e | Some(e) in errors ::
          e.Refused? || e in {UnfinishedExists, NoTransaction, NoIdReserved, IdCollision, Conflict}
        invariant old(Clear(durable, staging)) && old(Unused(draw, drawn, durable, staging)) && Injective(draw) ==>
          && Clear(durable, staging) && Unused(draw, drawn, durable, staging)
          && Some(IdCollision) !in errors && Some(Conflict) !in errors
      {
        ghost var durable0, staging0, drawn0 := durable, staging, drawn;
        match commands[i] {
          case Create(manifest) =>
            var r := CreateTransaction(manifest);
            errors := errors + [if r.Failed? then Some(r.error) else None];
          case Load =>
            var r := LoadUnfinished();
            errors := errors + [if r.Failed? then Some(r.error) else None];
          case Change(caller, expected, target, update) =>
            var r := Transition(caller, expected, target, update);
            SameNames(durable0, durable, staging);
            errors := errors + [if r.Failed? then Some(r.error) else None];
        }
        MovesOn(old(durable), durable0, durable);
        if Injective(draw) && Unused(draw, drawn0, durable0, staging0) {
          StillUnused(draw, drawn0, drawn, durable0, staging0, durable, staging);
        }
      }
    }
  }

  ghost predicate Injective(draw: nat -> Id) {
    forall i: nat, j: nat | i < j :: draw(i) != draw(j)
  }

  ghost predicate Drawn(draw: nat -> Id, id: Id, from: nat, to: nat) {
    exists i: nat :: from <= i < to && draw(i) == id
  }

  /** No id that is still to be drawn is in use. */
  ghost predicate Unused(draw: nat -> Id, drawn: nat, durable: map<Id, State>, staging: map<Id, Staging>) {
    forall i: nat | drawn <= i :: draw(i) !in durable && draw(i) !in staging
  }

  /** Nothing is unfinished, in either place. */
  ghost predicate Idle(durable: map<Id, State>, staging: map<Id, Staging>) {
    forall id :: !Unfinished(durable, id) && !Written(staging, id)
  }

  lemma IdleIsClear(durable: map<Id, State>, staging: map<Id, Staging>)
    ensures Idle(durable, staging) ==> Clear(durable, staging)
  {
  }

  lemma WasDrawn(draw: nat -> Id, i: nat, from: nat, to: nat)
    ensures from <= i < to ==> Drawn(draw, draw(i), from, to)
  {
  }

  /** An id that comes up again is refused, and it blocks all that follows. */
  method CollisionSticks(root: Root, manifest: Digest) returns (r: Reply<State>, later: Reply<Option<State>>)
    requires Shaped(root.durable, root.staging) && Single(root.durable, root.staging)
    requires Idle(root.durable, root.staging) && Unkilled(root.script)
    requires root.draw(root.drawn) in root.durable && root.draw(root.drawn) !in root.staging
    modifies root
    ensures r == Failed(IdCollision) && later == Failed(Conflict)
  {
    hide Shaped, Single, Clear, Moves, Drawn, Idle;
    r := root.CreateTransaction(manifest);
    later := root.LoadUnfinished();
  }

  lemma FirstStaged(durable: map<Id, State>, staging: map<Id, Staging>, id: Id, dir: Staging)
    requires Shaped(durable, staging) && (dir == map[] || Begun(dir) || Complete(dir, id))
    requires forall i :: !Written(staging, i) && !Unfinished(durable, i)
    ensures Shaped(durable, staging[id := dir]) && Single(durable, staging[id := dir])
    ensures id !in durable ==> Clear(durable, staging[id := dir])
  {
    var after := staging[id := dir];
    assert forall i :: Written(after, i) ==> i == id || Written(staging, i);
  }

  lemma SameNames(before: map<Id, State>, after: map<Id, State>, staging: map<Id, Staging>)
    requires before.Keys == after.Keys
    ensures Clear(before, staging) ==> Clear(after, staging)
  {
  }

  lemma StillUnused(draw: nat -> Id, from: nat, to: nat, durable0: map<Id, State>, staging0: map<Id, Staging>,
                    durable: map<Id, State>, staging: map<Id, Staging>)
    requires Injective(draw) && Unused(draw, from, durable0, staging0) && from <= to
    requires forall id | id in durable || id in staging ::
      id in durable0 || id in staging0 || Drawn(draw, id, from, to)
    ensures Unused(draw, to, durable, staging)
    ensures forall id | id in durable0 :: !Drawn(draw, id, from, to)
  {
    forall i: nat | to <= i ensures draw(i) !in durable && draw(i) !in staging {
      assert !Drawn(draw, draw(i), from, to);
    }
  }

  lemma NowComplete(id: Id, state: State)
    requires state.id == id && state.phase == New
    ensures Complete(map[StateFile := Whole(state)], id)
  {
  }

  lemma NotClear(durable: map<Id, State>, staging: map<Id, Staging>, id: Id)
    requires id in durable && id in staging && Complete(staging[id], id)
    ensures !Clear(durable, staging)
  {
    assert Written(staging, id);
  }

  lemma OneStep(durable: map<Id, State>, staging: map<Id, Staging>, id: Id, next: State)
    requires Shaped(durable, staging) && Single(durable, staging)
    requires id in durable && Follows(durable[id], next)
    ensures var after := durable[id := next];
      Shaped(after, staging) && Single(after, staging) && Moves(durable, after)
  {
    hide Reaches;
    StaysPut(durable);
    ReachesStep(durable[id], next);
    var after := durable[id := next];
    assert forall a | Unfinished(after, a) :: Unfinished(durable, a);
  }

  lemma StaysPut(durable: map<Id, State>)
    ensures Moves(durable, durable)
  {
    hide Reaches;
    forall id | id in durable ensures Reaches(durable[id], durable[id]) {
      ReachesSelf(durable[id]);
    }
  }
}

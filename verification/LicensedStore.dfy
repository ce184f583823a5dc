/** The private transaction that installs one licensed file, and its rollback. */
module LicensedStore {
  import opened Outcomes
  import opened ByteStrings
  import opened LicensedModel

  type Reply<+T> = Outcome<T, Error>

  class Store {
    var names: Directory
    var journal: Option<Journal>
    var script: seq<Event>
    var drawn: nat
    var nextId: nat
    const draw: nat -> nat
    const createMode: nat // 0o644 less the process umask

    constructor (names: Directory, journal: Option<Journal>, script: seq<Event>,
                 nextId: nat, draw: nat -> nat, createMode: nat)
      requires forall n | n in names :: names[n].id < nextId
      ensures Valid()
      ensures this.names == names && this.journal == journal && this.script == script
      ensures this.draw == draw && drawn == 0 && this.createMode == createMode
    {
      this.names, this.journal, this.script := names, journal, script;
      this.nextId, this.draw, this.createMode := nextId, draw, createMode;
      drawn := 0;
    }

    ghost predicate Valid()
      reads this
    {
      forall n | n in names :: names[n].id < nextId
    }

    /** No outside writer, and random tokens that do not collide. */
    ghost predicate Calm()
      reads this
    {
      && Quiet(script)
      && Lucky(draw, drawn, names)
      && (journal.Some? ==> forall i: nat | drawn <= i :: draw(i) != journal.value.token)
    }

    // System calls -------------------------------------------------------------

    /** Let everything happen that comes before the next system call. */
    method Tick() returns (r: Reply<()>)
      requires Valid()
      modifies `script, `names, `nextId
      ensures Valid() && Advances(old(script), script)
      ensures Extends(old(names), names)
      ensures Quiet(old(script)) ==> names == old(names)
      ensures names == Arrived(old(script), old(names))
      ensures r.Done? || (r.Killed? && |script| < |old(script)|)
      ensures Unkilled(old(script)) ==> r.Done?
      ensures r.Done? ==> |script| < |old(script)| || (script == [] && names == old(names))
    {
      while script != [] && script[0].Arrive?
        invariant Valid() && Advances(old(script), script)
        invariant Extends(old(names), names)
        invariant Quiet(old(script)) ==> names == old(names)
        invariant Arrived(script, names) == Arrived(old(script), old(names))
        invariant |script| < |old(script)| || (script == old(script) && names == old(names))
        decreases |script|
      {
        var event := script[0];
        script := script[1..];
        if event.name !in names {
          names := names[event.name := event.file];
          nextId := if nextId <= event.file.id then event.file.id + 1 else nextId;
        }
      }
      if script == [] {
        return Done(());
      }
      var event := script[0];
      script := script[1..];
      r := if event.Kill? then Killed else Done(());
    }

    /** A fresh random token. */
    method Draw() returns (token: nat)
      requires Valid()
      modifies `drawn
      ensures token == draw(old(drawn)) && drawn == old(drawn) + 1
    {
      token := draw(drawn);
      drawn := drawn + 1;
    }

    /** Open a name without following links and read what it holds. */
    method OpenRecord(name: Name) returns (r: Reply<Record>)
      requires Valid()
      modifies `script, `names, `nextId
      ensures Valid() && Advances(old(script), script)
      ensures Extends(old(names), names)
      ensures Quiet(old(script)) ==> names == old(names)
      ensures r.Killed? ==> |script| < |old(script)| && !Unkilled(old(script))
      ensures r.Done? ==> r.value == RecordOf(names, name) && (name in names ==> names[name].Regular?)
      ensures r.Failed? ==> r.error.NotRegular? && name in names && names[name].Special?
    {
      var _ :- Tick();
      if name !in names {
        return Done(Absent);
      }
      match names[name]
      case Special(_) => return Failed(NotRegular);
      case Regular(_, data, mode) => return Done(Present(data, mode));
    }

    /** Rename unless the target exists; the answer tells which. */
    method RenameNoReplace(from: Name, to: Name) returns (r: Reply<bool>)
      requires Valid() && from != to
      modifies `script, `names, `nextId
      ensures Valid() && Advances(old(script), script)
      ensures r.Killed? ==> |script| < |old(script)| && !Unkilled(old(script))
      ensures r.Failed? ==> r.error.SystemError? && from !in old(names)
      ensures r == Done(true) ==>
        && Renamed(old(names), names, from, to)
        && (Quiet(old(script)) ==> from in old(names) && names == old(names)[to := old(names)[from]] - {from})
        && (|script| < |old(script)| || script == old(script) == [])
      ensures r != Done(true) ==> Extends(old(names), names)
      ensures r != Done(true) && Quiet(old(script)) ==> names == old(names)
      ensures r == Done(false) ==> to in names
      ensures Kept(old(names), names)
    {
      var tick := Tick();
      ExtendsKept(old(names), names);
      if !tick.Done? {
        return tick.PropagateFailure();
      }
      if from !in names {
        return Failed(SystemError);
      }
      if to in names {
        return Done(false);
      }
      names := names[to := names[from]] - {from};
      RenamedKept(old(names), names, from, to);
      r := Done(true);
    }

    /** Create an empty file unless the name exists; the answer tells which. */
    method CreateExclusive(name: Name) returns (r: Reply<bool>)
      requires Valid()
      modifies `script, `names, `nextId
      ensures Valid() && Advances(old(script), script)
      ensures r.Killed? ==> |script| < |old(script)| && !Unkilled(old(script))
      ensures !r.Failed?
      ensures Extends(old(names), names)
      ensures r == Done(true) ==>
        && name !in old(names) && name in names
        && names[name].Regular? && names[name].data == [] && names[name].id !in old(Ids())
        && (Quiet(old(script)) ==> names == old(names)[name := names[name]])
      ensures r != Done(true) && Quiet(old(script)) ==> names == old(names)
      ensures r == Done(false) ==> name in names && (|script| < |old(script)| || name in old(names))
    {
      var _ :- Tick();
      if name in names {
        return Done(false);
      }
      names := names[name := Regular(nextId, [], createMode)];
      nextId := nextId + 1;
      r := Done(true);
    }

    ghost function Ids(): set<nat>
      reads this
    {
      set n | n in names :: names[n].id
    }

    /** Change the mode of the open file, which is still called name. */
    method Chmod(name: Name, mode: nat) returns (r: Reply<()>)
      requires Valid() && name in names && names[name].Regular?
      modifies `script, `names, `nextId
      ensures Valid() && Advances(old(script), script)
      ensures r.Killed? ==> |script| < |old(script)| && !Unkilled(old(script))
      ensures !r.Failed?
      ensures name in names && names[name] == (if r.Done? then old(names)[name].(mode := mode) else old(names)[name])
      ensures forall n | n in old(names) && n != name :: n in names && names[n] == old(names)[n]
      ensures Quiet(old(script)) ==> names.Keys == old(names).Keys
    {
      var _ :- Tick();
      names := names[name := names[name].(mode := mode)];
      r := Done(());
    }

    /** Append some of the bytes to the open file; the answer is how many. */
    method Write(name: Name, bytes: Bytes) returns (r: Reply<nat>)
      requires Valid() && name in names && names[name].Regular? && bytes != []
      modifies `script, `names, `nextId
      ensures Valid() && Advances(old(script), script)
      ensures r.Killed? ==> |script| < |old(script)| && !Unkilled(old(script))
      ensures !r.Failed?
      ensures r.Done? ==> 1 <= r.value <= |bytes|
      ensures name in names && names[name] == (
        if r.Done? then old(names)[name].(data := old(names)[name].data + bytes[..r.value])
        else old(names)[name])
      ensures forall n | n in old(names) && n != name :: n in names && names[n] == old(names)[n]
      ensures Quiet(old(script)) ==> names.Keys == old(names).Keys
    {
      var _ :- Tick();
      var written: nat :| 1 <= written <= |bytes|;
      names := names[name := names[name].(data := names[name].data + bytes[..written])];
      r := Done(written);
    }

    /** Replace the journal, entirely or not at all. */
    method WriteJournal(value: Journal) returns (r: Reply<()>)
      requires Valid()
      modifies `script, `names, `nextId, `journal
      ensures Valid() && Advances(old(script), script)
      ensures r.Killed? ==> |script| < |old(script)| && !Unkilled(old(script))
      ensures !r.Failed?
      ensures Extends(old(names), names) && Kept(old(names), names)
      ensures Quiet(old(script)) ==> names == old(names)
      ensures journal == if r.Done? then Some(value) else old(journal)
    {
      var tick := Tick();
      ExtendsKept(old(names), names);
      if !tick.Done? {
        return tick.PropagateFailure();
      }
      journal := Some(value);
      r := Done(());
    }
  }
}

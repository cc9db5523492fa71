/** The Agent's state file and the rename dance that replaces it, with a crash possible after every
    operating-system call. */
module StateFiles {
  import opened Basics

  /** A file being written holds nothing readable until the write is complete. */
  datatype Draft<S> = Torn | Whole(state: S)

  datatype Files<S> = Files(main: Option<S>, draft: Option<Draft<S>>, backup: Option<S>)

  /** Which of the calls of one `save` succeed. */
  datatype Io = Io(
    create: bool, write: bool, clearBackup: bool, probe: bool, moveAside: bool, install: bool, restore: bool,
    dropBackup: bool)

  /** The main file, or else the backup. */
  function Load<S>(files: Files<S>): Option<S> {
    if files.main.Some? then files.main else files.backup
  }

  /** Every state the disk passes through during one `save`, the first being the one it starts from. A
      crash leaves the disk in one of these. */
  function Trail<S>(files: Files<S>, state: S, io: Io): seq<Files<S>> {
    var staging := Staging(files, state, io);
    if io.create && io.write then staging + Swapping(staging[3], state, io) else staging
  }

  /** Writing the draft and removing an old backup. */
  function Staging<S>(files: Files<S>, state: S, io: Io): (trail: seq<Files<S>>)
    ensures io.create && io.write ==> |trail| == 4
  {
    var torn := files.(draft := Some(Torn));
    var written := files.(draft := Some(Whole(state)));
    var cleared := if io.clearBackup then written.(backup := None) else written;
    if !io.create then [files] else if !io.write then [files, torn] else [files, torn, written, cleared]
  }

  /** Setting the old main file aside and putting the draft in its place. */
  function Swapping<S>(files: Files<S>, state: S, io: Io): seq<Files<S>> {
    var aside := files.(main := None, backup := files.main);
    if !io.probe then [] else if files.main.None? then Install(files, state, io)
    else if !io.moveAside then [] else [aside] + Install(aside, state, io)
  }

  function Install<S>(files: Files<S>, state: S, io: Io): seq<Files<S>> {
    if io.install then
      var installed := files.(main := Some(state), draft := None);
      if io.dropBackup then [installed, installed.(backup := None)] else [installed]
    else if files.backup.Some? && io.restore then [files.(main := files.backup, backup := None)]
    else []
  }

  /** Whether `save` reports success. */
  predicate Saved<S>(files: Files<S>, io: Io) {
    io.create && io.write && io.probe && (files.main.Some? ==> io.moveAside) && io.install
  }

  function Last<S>(files: Files<S>, state: S, io: Io): Files<S> {
    Trail(files, state, io)[|Trail(files, state, io)| - 1]
  }

  // ----- what a crash can do -----

  /** The one point at which nothing is left to load: the state so far was only in the backup, the backup
      has been removed, and the new file is not in place yet. */
  predicate Gap<S>(files: Files<S>, io: Io, i: nat) {
    && files.main.None? && files.backup.Some?
    && io.create && io.write && io.clearBackup
    && i == 3
  }

  /** A crash anywhere in a save leaves the old state or the new one, except exactly at that point, where
      it leaves neither. */
  lemma CrashKeepsOldOrNew<S>(files: Files<S>, state: S, io: Io, i: nat)
    requires i < |Trail(files, state, io)|
    ensures !Gap(files, io, i) ==>
              Load(Trail(files, state, io)[i]) == Load(files) || Load(Trail(files, state, io)[i]) == Some(state)
    ensures Gap(files, io, i) ==> Load(files).Some? && Load(Trail(files, state, io)[i]) == None
  {
    var trail := Trail(files, state, io);
    if i >= 4 {
      if files.main.Some? {
        var aside := trail[4];
        assert i >= 5 ==> trail[i] == Install(aside, state, io)[i - 5];
      } else {
        assert trail[i] == Install(trail[3], state, io)[i - 4];
      }
    }
  }

  /** A save is safe against every crash and every failing call exactly when the main file is there, or
      there is nothing to lose. */
  lemma SaveIsSafeIff<S>(files: Files<S>, state: S)
    ensures (forall io, i: nat :: i < |Trail(files, state, io)| ==>
               Load(Trail(files, state, io)[i]) == Load(files) || Load(Trail(files, state, io)[i]) == Some(state))
            <==> files.main.Some? || files.backup.None?
  {
    if files.main.Some? || files.backup.None? {
      forall io, i: nat | i < |Trail(files, state, io)|
        ensures Load(Trail(files, state, io)[i]) == Load(files) || Load(Trail(files, state, io)[i]) == Some(state)
      {
        CrashKeepsOldOrNew(files, state, io, i);
      }
    } else {
      var io := Io(true, true, true, true, true, true, true, true);
      assert Gap(files, io, 3);
      CrashKeepsOldOrNew(files, state, io, 3);
      assert 3 < |Trail(files, state, io)|;
    }
  }

  /** A save that reports success has replaced the state and left the main file in place; one that reports
      an error has changed nothing that loads, unless it ended in the gap. */
  lemma ReportIsTrue<S>(files: Files<S>, state: S, io: Io)
    ensures Saved(files, io) ==>
              Last(files, state, io).main == Some(state) && Load(Last(files, state, io)) == Some(state)
    ensures !Saved(files, io) && !Gap(files, io, |Trail(files, state, io)| - 1) ==>
              Load(Last(files, state, io)) == Load(files)
  {
    var trail := Trail(files, state, io);
    if |trail| > 4 {
      if files.main.Some? {
        var install := Install(trail[4], state, io);
        assert |trail| == 5 + |install|;
        assert install != [] ==> trail[|trail| - 1] == install[|install| - 1];
      } else {
        var install := Install(trail[3], state, io);
        assert trail[|trail| - 1] == install[|install| - 1];
      }
    }
  }

  /** The next save finds no main file only after an interrupted one: a crash between setting the old file
      aside and installing the new one, or a failed install whose restore failed too. */
  lemma MainGoesMissingOnlyMidway<S>(files: Files<S>, state: S, io: Io, i: nat)
    requires files.main.Some? && i < |Trail(files, state, io)|
    ensures Trail(files, state, io)[i].main.None? <==> i == 4
    ensures i == 4 ==> Trail(files, state, io)[i].backup == files.main
  {
    if i >= 5 {
      assert Trail(files, state, io)[i] == Install(Trail(files, state, io)[4], state, io)[i - 5];
    }
  }

  /** The store as an object. `trail` is the ghost record of every state the disk has been in. */
  class FileAgentStateStore<S> {
    var main: Option<S>
    var draft: Option<Draft<S>>
    var backup: Option<S>
    ghost var trail: seq<Files<S>>

    ghost function Disk(): Files<S>
      reads this
    {
      Files(main, draft, backup)
    }

    ghost method Note()
      modifies this`trail
      ensures trail == old(trail) + [Disk()]
    {
      trail := trail + [Disk()];
    }

    method LoadState() returns (state: Option<S>)
      ensures state == Load(Disk())
    {
      if main.Some? {
        state := main;
      } else {
        state := backup;
      }
    }

    method WriteDraft(state: S, io: Io) returns (ok: bool)
      modifies this
      ensures ok == (io.create && io.write)
      ensures trail == old(trail) + Staging(old(Disk()), state, io) && trail[|trail| - 1] == Disk()
    {
      Note();
      if !io.create { return false; }
      draft := Some(Torn);
      Note();
      if !io.write { return false; }
      draft := Some(Whole(state));
      Note();
      if io.clearBackup { backup := None; }
      Note();
      ok := true;
    }

    method InstallDraft(state: S, io: Io)
      requires trail != [] && trail[|trail| - 1] == Disk()
      modifies this
      ensures trail == old(trail) + Install(old(Disk()), state, io) && trail[|trail| - 1] == Disk()
    {
      if io.install {
        main, draft := Some(state), None;
        Note();
        if io.dropBackup {
          backup := None;
          Note();
        }
      } else if backup.Some? && io.restore {
        main, backup := backup, None;
        Note();
      }
    }

    /** Replaces the state; the disk goes through exactly the states of `Trail`, in that order. */
    method Save(state: S, io: Io) returns (ok: bool)
      modifies this
      ensures ok == Saved(old(Disk()), io)
      ensures trail == old(trail) + Trail(old(Disk()), state, io) && trail[|trail| - 1] == Disk()
    {
      ok := WriteDraft(state, io);
      if !ok { return; }
      if !io.probe { return false; }
      if main.Some? {
        if !io.moveAside { return false; }
        backup, main := main, None;
        Note();
      }
      InstallDraft(state, io);
      ok := io.install;
    }
  }
}

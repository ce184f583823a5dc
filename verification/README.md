# Verified model of the crash-recoverable installer

The bootstrap program installs and withdraws files for one game on one machine, and it
must survive being killed between any two system calls. This project models its durable
protocols and its hand-written parsers in Dafny and proves what they promise, over every
kill schedule, every input and every order of calls. `dafny verify dfyconfig.toml` checks
the whole project.

## Components

- **Licensed file** (`LicensedModel`, `LicensedStore`, `Licensed`): the journalled install,
  replacement or adoption of one file through its sibling names, and its rollback. The
  directory maps names to inodes with contents and mode; a script says at which system call
  the process dies and where somebody else adds a file. `InstallReach` and `RollbackReach`
  are the invariants over (status, stage, backup, held, destination).
- **Archive guard** (`TarFormat`, `TarNumbers`, `TarNames`, `TarStates`, `TarGrammar`,
  `TarGuard`, `TarRoom`): the
  byte-stream guard of ustar archives (the "ustar Interchange Format" section of the `pax`
  utility in IEEE Std 1003.1-2017, with GNU long names and base-256 numbers) against a
  grammar of whole archives. As in the program, extension records may stand directly before
  the closing zero blocks, with no member after them.
- **Link graph and extraction** (`LinkGraph`, `ArchiveGraph`, `ExtractedTree`,
  `Extraction`): the cycle search, link resolution, and the whole way from the first scan
  to the verified tree.
- **VDF** (`VdfLexer`, `VdfParser`, `Vdf`, `VdfRewrite`): tokenizer, parser and the rewrite
  that splices two names into the text.
- **Durable state** (`BootstrapState`, `StateRoot`): transitions with compare-and-swap, the
  creation of a transaction in a staging directory and its recovery.
- **Coordinator** (`Owners`, `FinishLine`, `Finish`, `Preparation`, `Coordinator`,
  `Rollback`, `Sessions`): Finish and its resumption, the resumption of Prepare, the rollback
  of four owners, and processes that act on old copies of the state. Owners are abstract (a
  status, and an action that may die or fail before, in the middle of or after its effect);
  the drivers are the program's.
- **Publication and composed setup** (`Publication`, `ComposedSetup`): the two-name
  publication of a tool, and the second phase machine with its pointer to the active
  transaction.
- **Snapshots** (`SnapshotCompare`, `LicensedSnapshot`): the rules derived before a Finish,
  the comparison after it, and what an install of the licensed file means for it.

Kills are modelled as `Killed` outcomes: nothing of a call after that point happens, and
the durable state is what the calls before it left. A SHA-256 is identified with the bytes
it was computed from. `Outcomes` holds the shared result types.

## What turned out to be false of the code

- *A rollback of applied patches never completes.* After the patches are restored,
  `_default_patch_recovery_status` finds the targets original and the backup manifest still
  recorded, and calls that an error (`forza_bootstrap/coordinator.py:4130-4134`, with
  4155-4157). `Rollback.PatchedIsStuck` shows it, `Rollback.RestorablePatches` gives the
  condition (there is no backup), and `Rollback.RollBackUntilDone` proves that repeated
  rollbacks succeed if and only if every owner was restorable in that sense.
- *An install can be called after a rollback.* `resume` reads the state before it has the
  launcher lease (`forza_bootstrap/coordinator.py:4498-4520`). In `INSTALLING_FINISH` nothing
  compares the copy again before the first install (3903-3953), and in `PREPARING` nothing
  does before the tool is published (3395-3572). A session is *overtaken* if it is such a
  resumption, the transaction is withdrawn when it gets the lease, and its first look finds
  nothing in the way: in `INSTALLING_FINISH` the tool in its place and no child that the copy
  does not name, in `PREPARING` no tool, no record of one, and a plan that creates it.
  `Sessions.RunAll` returns the moment before each session, and proves that an install is
  called late only if some session was overtaken at its own moment, and that one is called
  then unless a process dies or fails first. `Sessions.ChainFixed` proves that the log, in
  which each session records what it found, leaves no choice of these moments.
  `Sessions.OvertakenByRollback` says what a completed rollback leaves open: a resumed Finish
  calls an install exactly if the tool was not created by this transaction and is there, a
  resumed Prepare exactly if no tool was created yet. `Sessions.OvertakenFinish` and
  `Sessions.OvertakenPrepare` are two such runs. Marking a transaction `RECOVERY_REQUIRED`
  needs no lease either, so the strict form (no install in `RECOVERY_REQUIRED`) holds when no
  process does that meanwhile. The composed setup reads its state under the lease and does
  not have the gap (`ComposedSetup.Setup.RunAll`).
- *Not every killed Finish can be resumed.* `validate_prefix` refuses an unfinished child of
  the runtime that the state does not name (`forza_bootstrap/coordinator.py:719-798`, called
  at 3916), so the search for the child of a dead process (3967) is never reached when it
  would find one: a death between the creation of the child and the boundary after it ends in
  `RECOVERY_REQUIRED`, and so does one that leaves some of the patches applied.
  `Coordinator.FinishUntilReady` proves that repeated resumptions complete if and only if
  neither of the two is so, and `Coordinator.LeftChildIsStuck` shows the first.
- *A child that died before its journal stops the rollback too.* The installer makes the
  directory before the journal (`scripts/install-runtime-components:1585-1637`), and the
  search of the rollback treats a missing journal as an error
  (`forza_bootstrap/coordinator.py:4236-4238`, with 429-432 and 466-467).
  `Rollback.RestorableRuntime` gives the condition.
- *An accepted runtime is never replaced.* For the coordinator an accepted child is over
  (`forza_bootstrap/coordinator.py:85`), and the installer refuses to begin beside one
  (`scripts/install-runtime-components:1567-1581`): a Finish that plans to install the runtime
  never completes, and neither does any resumption of it (`Coordinator.AcceptedIsNotReplaced`).
- *Not every killed Prepare can be resumed.* A stage that a dead publication left is in the
  way of the next one (`forza_bootstrap/proton.py:1034-1039`), and a tool that was published
  and not recorded is ambiguous (`forza_bootstrap/coordinator.py:3499-3541`).
  `Preparation.PrepareUntilAwaiting` proves that these are the only two ways to get stuck.
- *A kept licensed file can make Finish fail.* The rules want mode 0644
  (`forza_bootstrap/coordinator.py:2781`), and a file that is kept stays at the mode it has
  (`forza_bootstrap/licensed.py:820-825`). `LicensedSnapshot.InstallAsPlanned` proves that an
  install leaves the file as planned if and only if it is not kept or had that mode, and
  `LicensedSnapshot.KeptOtherwise` that the comparison finds it otherwise.
- *A drawn id that is durable already blocks the state root for good.*
  `StateRoot.Root.PublishNew` and `StateRoot.CollisionSticks` give the exact condition.
- *A drawn token that is the active one can strand the composed setup.*
  `ComposedSetup.Setup.PrepareComposed` proves that a Prepare leaves an active record that
  cannot be loaded if and only if it drew the active token, its plan differs from the recorded
  one, and its step after the plan, the record, was the first that did not succeed. Then no
  command does anything again (`ComposedSetup.Setup.StrandedForGood`), and
  `ComposedSetup.StrandedRun` is such a run. After any other token that comes up again the
  active record can be loaded, but a new record inherits the owners of its directory, and
  these disagree with it if and only if one of them was withdrawn.
- *A stale copy can be durable again*, but only between `ROLLING_BACK` and
  `RECOVERY_REQUIRED` (`BootstrapState.StatesReturnOnlyInRollback`, `StatesDoReturn`).

## Model

| member | source | states |
|---|---|---|
| Licensed.InstallThreadingCopy | forza_bootstrap/licensed.py:796-935 | a completed install has the source at the destination at mode 0644, status installed, and for a replacement the recorded file in the backup; from every reachable state a killed one stays reachable and never fails; a file at the destination that is neither the source nor the recorded one is never touched; nothing is touched, and each is refused with its own error, for an invalid action, another source, a foreign action, a withdrawn or a stopped transaction; no file of the directory is lost whatever outsiders add |
| Licensed.InstallUntilDone | forza_bootstrap/licensed.py:796-935 | any schedule of killed installs followed by one that is not killed ends installed and complete, the backup holding the original inode |
| Licensed.RollbackThreadingCopy | forza_bootstrap/licensed.py:971-1073 | from every state that killed installs or rollbacks leave, a rollback never fails and, when it completes, the destination is the original inode with its bytes and mode, or absent; with no journal, or an invalid one, it is refused with nothing changed |
| Licensed.RollbackUntilDone | forza_bootstrap/licensed.py:971-1073 | any number of killed rollbacks and one completed: the original destination, status rolled back |
| Licensed.InstallThenRollBack | forza_bootstrap/licensed.py:796-1073 | installs that end in any way and a repeated rollback are the identity on the destination and lose no file; between them, if one was not killed, the source is there |
| Licensed.PlanThreadingCopy | forza_bootstrap/licensed.py:306-345 | a plan installs where nothing is, keeps what is the source, and replaces any other file; it is refused for a source of the wrong size or for what is no regular file |
| Licensed.PlanInstallRollBack | forza_bootstrap/licensed.py:306-1073 | from the plan on: an install without deaths and interference puts the source at the destination, and one that is withdrawn, however it ended, leaves the destination as it was before the plan |
| Licensed.CopyStage | forza_bootstrap/licensed.py:571-612 | the stage carries the whole source at its final mode, or an unfinished one is preserved under a new name, never overwritten |
| Licensed.PreservePartialStage | forza_bootstrap/licensed.py:535-568 | the stage name is free again and every file is still there |
| Licensed.QuarantineDestination | forza_bootstrap/licensed.py:615-654 | the destination is moved to the recovery name and the transaction stops |
| Licensed.PublishStage | forza_bootstrap/licensed.py:739-793 | the stage becomes the destination and the journal says so, or what went wrong is kept as evidence |
| Licensed.MoveBound | forza_bootstrap/licensed.py:938-968 | only a file with the expected record is renamed, and nothing is replaced |
| Licensed.LoadOrCreateJournal | forza_bootstrap/licensed.py:657-675 | a journal of another action is refused; a new one names fresh siblings |
| LicensedModel.RollbackCases | forza_bootstrap/licensed.py:971-1073 | what is found at the destination decides which of the reachable states holds |
| LicensedModel.WellFormedIsPlanned | forza_bootstrap/licensed.py:699-716 | an action is accepted if and only if it is what a plan makes of its source and its record |
| LicensedModel.SourceMeansPublished | forza_bootstrap/licensed.py:796-830 | in a reachable state the source is at the destination if and only if it was published, at the right mode and with the backup in place |
| LicensedModel.StagingKeepsReach | forza_bootstrap/licensed.py:571-612 | work on the stage keeps every reachable state reachable |
| LicensedModel.RenamedKept | forza_bootstrap/licensed.py:938-968 | a rename that replaces nothing conserves every inode with bytes and mode |
| VdfLexer.LexAccepts | forza_bootstrap/proton.py:227-263 | exactly the texts that lay out tokens with white space and comments are tokenized, and to those tokens at those offsets |
| VdfLexer.LexWhole | forza_bootstrap/proton.py:227-263 | every layout of tokens, whatever white space and comments stand between them, is tokenized back |
| VdfLexer.TokenizeVdf | forza_bootstrap/proton.py:227-263 | the index-driven loop computes the tokens of the specification |
| VdfParser.ParseSound | forza_bootstrap/proton.py:266-301 | what is parsed is what the tokens spell, every token once, with no key twice in an object |
| VdfParser.ParseComplete | forza_bootstrap/proton.py:266-301 | whatever the tokens spell with distinct keys is parsed, and to that |
| VdfParser.Parser.ReadEntries | forza_bootstrap/proton.py:266-301 | the recursive reader with its shared position is the specification, and it terminates |
| Vdf.ParseAccepts | forza_bootstrap/proton.py:227-301 | a text parses to a tree if and only if the keys are distinct and the text writes that tree in some layout |
| Vdf.RoundTrip | forza_bootstrap/proton.py:227-301 | every tree with distinct keys, written with any white space and comments, parses back to itself |
| Vdf.IdentityMeaning | forza_bootstrap/proton.py:304-322 | the identity check depends only on the parsed tree: one tool with the expected key and display name |
| VdfRewrite.RewriteMeaning | forza_bootstrap/proton.py:325-332 | for every accepted text, splicing the two names yields the same token kinds and values but for them, and the original tree with only the tool key and display name changed |
| VdfRewrite.RewrittenVdf | forza_bootstrap/proton.py:325-332 | the rewrite succeeds whenever the identity check does; its closing check never fails |
| VdfRewrite.SpliceBoth | forza_bootstrap/proton.py:325-332 | splicing tokens by offset, the later first, renders the layout with both tokens replaced and all else where it was |
| TarNumbers.OctalRoundTrip | forza_bootstrap/artifacts.py:684-697 | every number that fits is read back from its octal field, whatever blanks surround it |
| TarNumbers.BinaryRoundTrip | forza_bootstrap/artifacts.py:684-697 | every number that fits is read back from its base-256 field |
| TarNumbers.NumbersRefused | forza_bootstrap/artifacts.py:684-697 | blanks are zero; an empty field, a negative number and any digit that is not octal are refused |
| TarNumbers.ValidMeans | forza_bootstrap/artifacts.py:700-706 | a checksum is valid if and only if it is the unsigned or the signed sum with blanks in its place |
| TarNumbers.ChecksumNoticesChange | forza_bootstrap/artifacts.py:700-706 | no single byte outside the checksum field can change unnoticed, though two sums are accepted |
| TarNumbers.WrittenChecksumIsValid | forza_bootstrap/artifacts.py:700-706 | a header that carries its own sum is valid |
| TarNames.SafeNameMeans | forza_bootstrap/artifacts.py:709-729 | a raw name is safe if and only if it joins, by single slashes, parts that are not empty, no dots and hold no control character |
| TarNames.RawNameMeans | forza_bootstrap/artifacts.py:709-729 | the name is that of the long-name record, or prefix and name joined by a slash, without the slash that ends a directory's |
| TarNames.SparseMeans | forza_bootstrap/artifacts.py:850-856 | metadata is refused if and only if one of the two keys of sparse files stands anywhere in it |
| TarNames.FieldsRead | forza_bootstrap/artifacts.py:813-835 | type, size, name, prefix and checksum are read from their places in a header block |
| TarNames.ExtensionAdmitted | forza_bootstrap/artifacts.py:828-842 | an extension is admitted up to 64 KiB, 16 MiB in all, the limit of their number and eight in a row |
| TarStates.ChunksDoNotMatter | forza_bootstrap/artifacts.py:785-811 | every split of a stream into chunks is accepted alike and leaves the same fields |
| TarStates.StepInvariant | forza_bootstrap/artifacts.py:732-861 | bytes processed and still due agree with the header buffer modulo 512, and an extension buffer never exceeds 64 KiB |
| TarGrammar.GuardAcceptsGrammar | forza_bootstrap/artifacts.py:770-861 | the guard accepts exactly the archives of admitted records followed by two or more zero blocks and nothing else, within the byte, extension and depth limits |
| TarGrammar.FeedRecord | forza_bootstrap/artifacts.py:813-861 | one record is let through if and only if it is admitted after what came before it |
| TarGuard.TarGuard.Finish | forza_bootstrap/artifacts.py:770-783 | reading what is left and finishing succeeds if and only if the whole source is an acceptable archive |
| TarRoom.PolicyHasRoom | forza_bootstrap/artifacts.py:737-743 | an archive whose members, data, extensions and metadata are within the policy is let through by the limits made from it, if any limits let it through |
| TarRoom.PolicyBounds | forza_bootstrap/artifacts.py:737-743 | what those limits let through has no more extensions than the policy has members, and is bounded by the granted bytes and two blocks for each |
| TarGuard.TarGuard.Read | forza_bootstrap/artifacts.py:761-768 | bytes are passed on unchanged and in order; a refusal means that the archive is not acceptable |
| TarGuard.TarGuard.Consume | forza_bootstrap/artifacts.py:785-811 | the in-place loop over buffers is the byte-by-byte machine |
| LinkGraph.TerminatingIsAcyclic | forza_bootstrap/artifacts.py:1037-1056 | where every walk along links ends there is no cycle |
| LinkGraph.Search.Run | forza_bootstrap/artifacts.py:1037-1056 | the search reports a cycle if and only if the link relation has one |
| LinkGraph.Search.Visit | forza_bootstrap/artifacts.py:1040-1051 | a reported cycle is one along the trail of the search, and a visited path has an end |
| LinkGraph.ResolvedStaysBelow | forza_bootstrap/artifacts.py:986-1007 | a resolved target has no part that is empty or leads up |
| LinkGraph.NormalizeLaws | forza_bootstrap/artifacts.py:986-1007 | empty parts and dots do not matter, and a name and the way up from it cancel, anywhere in a path |
| LinkGraph.SymlinkMeans | forza_bootstrap/artifacts.py:986-1007 | a symbolic link up by n and down along names resolves from its own directory, if and only if that stays below the root |
| LinkGraph.HardlinkMeans | forza_bootstrap/artifacts.py:986-1007 | a hard link resolves from the top of the archive, and only below its root |
| ArchiveGraph.ValidateGraph | forza_bootstrap/artifacts.py:1010-1057 | accepted if and only if the root and all parents are directories, links are allowed, resolve, are declared, hardlinks lead to files, and there is no cycle; each refusal says which of these fails |
| ArchiveGraph.UltimateHardlinkTarget | forza_bootstrap/artifacts.py:1123-1129 | the walk terminates at the declared regular file at the end of the chain |
| ArchiveGraph.HardlinkTargetIsRegular | forza_bootstrap/artifacts.py:1123-1129 | every chain of hardlinks ends at a regular member |
| ExtractedTree.Stage.Unpack | forza_bootstrap/artifacts.py:1227-1296 | in any archive order, directories and files are in place with exactly the directories they need, and nothing is refused |
| ExtractedTree.Stage.CreateLinks | forza_bootstrap/artifacts.py:1132-1163 | hardlinks share the inode of their ultimate target, symlinks carry their target, and nothing else changes |
| ExtractedTree.Stage.ApplyModes | forza_bootstrap/artifacts.py:1166-1181 | the deepest-first pass gives exactly the declared directories their modes; implicit ones keep 0700 |
| ExtractedTree.Stage.OpenDirectory | forza_bootstrap/artifacts.py:1066-1098 | missing directories along the path appear with mode 0700, all else stays, and only a non-directory in the way is refused |
| Extraction.Scan | forza_bootstrap/artifacts.py:1184-1283 | accepted if and only if the count, names, duplicates, kinds, modes and total size are within the policy, and each refusal says which is not; an accepted path has no empty part, no dot and no way up |
| Extraction.SafeNameMeans | forza_bootstrap/artifacts.py:937-961 | a member's name is accepted if and only if it begins with the root and has no empty part, no dot and no way up |
| Extraction.ExpectedPaths | forza_bootstrap/artifacts.py:1570-1584 | the declared paths, and the prefixes of them that nothing declares |
| Extraction.VerifyTree | forza_bootstrap/artifacts.py:1587-1657 | accepts a tree if and only if it is exactly the declared one |
| Extraction.ExtractArchive | forza_bootstrap/artifacts.py:1184-1296 | an archive is extracted if and only if the first scan and the graph accept it and the second scan finds the same members, in any order; in the tree are exactly the members, with their contents, modes and targets, and directories of mode 0700 above them, all below the root, and its check never fails; the refusal of any other archive says what is wrong with it |
| BootstrapState.TransitionFollows | forza_bootstrap/state.py:538-631 | a caller whose copy is not the durable state changes nothing; any other makes one legal step |
| BootstrapState.FollowsTransition | forza_bootstrap/state.py:84-122 | every legal step is accepted from the durable copy |
| BootstrapState.TransitionRefused | forza_bootstrap/state.py:538-631 | every refusal of a transition, a stale copy, a phase that is not the expected one, a step that is not allowed, boundaries repeated or cut, a field written twice, no change, is what the request is |
| BootstrapState.AllowedMeans | forza_bootstrap/state.py:84-122 | a phase leads to the next one, and what is not over to ROLLING_BACK or RECOVERY_REQUIRED; ACCEPTED and ROLLED_BACK lead nowhere |
| BootstrapState.LinearLater | forza_bootstrap/state.py:567-592 | over any history boundaries only extend without repetition, the four write-once fields stay, terminal phases absorb, and what is withdrawn stays withdrawn |
| BootstrapState.ReachesOn | forza_bootstrap/state.py:567-592 | histories of one transaction join to one history |
| BootstrapState.ReachesLater | forza_bootstrap/state.py:567-592 | what any history ends in is later than what it began with |
| BootstrapState.StatesReturnOnlyInRollback | forza_bootstrap/state.py:112-121 | a state recurs in a history only in ROLLING_BACK or RECOVERY_REQUIRED |
| BootstrapState.StatesDoReturn | forza_bootstrap/state.py:112-121 | and there it can |
| StateRoot.Root.RecoverStaging | forza_bootstrap/state.py:265-297 | a written staging directory is published once, an unwritten one is left, and the only possible failure is an id that is durable already |
| StateRoot.Root.LoadUnfinished | forza_bootstrap/state.py:313-359 | finds the one unfinished transaction after publishing what was written; it succeeds if and only if no written staging directory has a durable id |
| StateRoot.Root.WriteState | forza_bootstrap/state.py:499-520 | killed at any step, the staging directory is empty, holds one temporary file, unwritten or written, or the state file, by the step |
| StateRoot.Root.DrawId | forza_bootstrap/state.py:494-500 | the first of a hundred drawn ids that is not in staging, and a failure only if all hundred are |
| StateRoot.Root.CreateTransaction | forza_bootstrap/state.py:481-535 | creates the sole unfinished transaction; killed anywhere it leaves at most one, durable or written |
| StateRoot.Root.PublishNew | forza_bootstrap/state.py:498-530 | with no kill, creation succeeds if and only if the drawn id is not durable |
| StateRoot.CollisionSticks | forza_bootstrap/state.py:287-296 | a repeated id is refused and every later load fails |
| StateRoot.Root.Transition | forza_bootstrap/state.py:595-647 | one transaction takes one step, for a caller with any copy; all others stay |
| StateRoot.Root.RunAll | forza_bootstrap/state.py:265-631 | any calls by any processes, killed anywhere: for every transaction a history of legal steps leads from its first state to its last, never two are unfinished; unsafe contents, differing ids and several unfinished are never reported, and conflicts never when ids are fresh |
| StateRoot.SingleCounts | forza_bootstrap/state.py:353-356 | durable unfinished transactions and written staging directories together are at most one |
| FinishLine.NotedOnLine | forza_bootstrap/coordinator.py:3856-3871 | noting a boundary once extends a prefix of the Finish line to a prefix of it |
| FinishLine.NoteAccepted | forza_bootstrap/coordinator.py:3076-3087 | such a note is a transition that the store accepts |
| FinishLine.PatchBoundary | forza_bootstrap/coordinator.py:3984-3991 | of patches-applied and patches-verified only the one of the plan is ever noted |
| FinishLine.PrefixMeans | forza_bootstrap/coordinator.py:1998-2016 | the prefix is valid if and only if the tool is in its place and no child is unfinished but the named one |
| Finish.ValidatePrefix | forza_bootstrap/coordinator.py:1998-2016 | it passes only with the tool in its place and no unfinished child of the runtime but the named one, and without failures then it does |
| Finish.NoteStep | forza_bootstrap/coordinator.py:3856-3871 | killed or not, the durable boundaries are a prefix of the line that agrees with the owners, at most this boundary is added, and a Finish that is not resumed never notes it twice |
| Finish.LicensedStage | forza_bootstrap/coordinator.py:3182-3187 | the boundary is noted only when the licensed file is installed or kept |
| Finish.CallRuntime | scripts/install-runtime-components:1567-1640 | a child appears first without a journal, then unfinished, then installed; beside one that is not rolled back or restored nothing is installed |
| Finish.RuntimeStage | forza_bootstrap/coordinator.py:3190-3212 | the two runtime boundaries are noted only for an installed child that is recorded, or for a kept runtime |
| Finish.ChildStage | forza_bootstrap/coordinator.py:3958-3975 | the child of a dead process is found and bound, and then no second one is installed |
| Finish.ResumePatches | forza_bootstrap/coordinator.py:3984-4038 | a resumed Finish binds an existing backup or accepts what is noted, and patches only what is original |
| Finish.CompareStep | forza_bootstrap/coordinator.py:3257-3263 | Finish passes the comparison only after its boundary is noted, a resumption notes it only after the comparison is passed |
| Finish.VerifyStage | forza_bootstrap/coordinator.py:3244-3276 | completed, this attempt itself has passed doctor, snapshot, comparison and options, in this order, and noted them on the line |
| Finish.InstallLine | forza_bootstrap/coordinator.py:3178-3289 | from the plan-commit on, a Finish leaves a prefix of the line wherever it dies, and the whole line when it completes; then it has looked at the prefix, called every owner that is not kept, and passed every check, in exactly this order |
| Finish.ResumeLine | forza_bootstrap/coordinator.py:3939-4067 | from any prefix, a completed resumption reaches READY_TO_ATTEMPT with the whole line; it has called the licensed file, the others if they were not found, and passed every check itself, in exactly this order |
| Coordinator.FinishUnderLease | forza_bootstrap/coordinator.py:3134-3289 | the same from the confirmed plan; owners are called only when the caller's copy was the durable state |
| Coordinator.ResumeUnderLease | forza_bootstrap/coordinator.py:3903-4069 | a resumption whose prefix is not valid changes no owner and does not complete; any other does as ResumeLine says, and in INSTALLING_FINISH its first call is made in whatever phase is durable |
| Coordinator.Resume | forza_bootstrap/coordinator.py:4498-4546 | what fails is given up, and the boundaries are still a prefix of the line |
| Coordinator.FinishUntilReady | forza_bootstrap/coordinator.py:3134-4069 | a Finish killed anywhere, in the middle of an install as well, any number of times and resumed each time, ends READY_TO_ATTEMPT with exactly the boundaries of the uninterrupted one, in order and once each, if and only if no death left an unnamed child of the runtime or some of the patches; else it is given up with the boundaries before that owner's |
| Coordinator.LeftChildIsStuck | forza_bootstrap/coordinator.py:3958-3975 | after a death between the runtime's install and its boundary every resumption fails, though nothing else did |
| Coordinator.AcceptedIsNotReplaced | scripts/install-runtime-components:1567-1581 | with an accepted child a Finish that is to install the runtime never completes, nor does any resumption of it, whatever happens |
| Coordinator.SetUpUntilReady | forza_bootstrap/coordinator.py:3134-4069 | Prepare and Finish from the confirmed plan on, killed anywhere and resumed each time, end READY_TO_ATTEMPT with the boundaries of an uninterrupted run if and only if no death fell in the middle of the publication, of the patches, or before the runtime's boundary; else RECOVERY_REQUIRED |
| Coordinator.StartUnderway | forza_bootstrap/coordinator.py:3134-3150 | the confirmed start of a Finish is one from which it can go on |
| Sessions.RunOne | forza_bootstrap/coordinator.py:4498-4546 | between the moments before and after a session its log entry tells what it found, its first step is the one of its command and phase, the durable state goes on by legal steps, a resumption that cannot go forward gives the transaction up and leaves what waits or has ended, and it calls an install for a withdrawn transaction only if it was overtaken, and then it does |
| Sessions.RunAll | forza_bootstrap/coordinator.py:4498-4675 | over any sessions with copies of any age: the moments before and after each of them form a chain from the first to the last, an install is called after a rollback began only if some session was overtaken at its moment, and, when sessions run to their end, if one was; the durable state only goes on |
| Sessions.ChainLate | forza_bootstrap/coordinator.py:4498-4675 | for every chain of sessions, late installs in the log are equivalent to an overtaken session, one way always and the other when nothing dies or fails |
| Sessions.ChainFixed | forza_bootstrap/coordinator.py:4498-4675 | two chains with the same log have the same durable state and owners before every session |
| Sessions.OvertakenByRollback | forza_bootstrap/coordinator.py:4498-4675 | a resumption that a completed rollback overtakes calls an install if and only if this transaction created no tool: in Finish the tool is there all the same, in Prepare none is |
| Sessions.OvertakenFinish | forza_bootstrap/coordinator.py:3903-3953 | a run in which Finish dies before its first install, a rollback completes, and the stale resumption calls the install |
| Sessions.OvertakenPrepare | forza_bootstrap/coordinator.py:3395-3572 | a run in which the tool is published for a transaction that is rolled back |
| Preparation.ResumePrepare | forza_bootstrap/coordinator.py:3395-3572 | the tool is published, in whatever phase is durable, if and only if it is not there, has no record, and the plan creates it; completed, it has gone through all its steps in order, the snapshot is there, the tool recorded and in place, and the state committed with the boundary and whose the tool is |
| Preparation.PrepareUntilAwaiting | forza_bootstrap/coordinator.py:3395-3572 | a Prepare killed anywhere any number of times and resumed each time ends AWAITING_STEAM_PREFIX with its tool recorded and in place if and only if no death fell in the middle of the publication; else it is given up |
| Preparation.PublishTool | forza_bootstrap/coordinator.py:1483-1513 | a stage in the way is an error and changes nothing; else only a death keeps the tool from its place |
| Rollback.UndoneSettles | forza_bootstrap/coordinator.py:4101-4152 | withdrawing a pending owner settles it if and only if it is not the patches |
| Rollback.RestorablePatches | forza_bootstrap/coordinator.py:4101-4179 | the patches can be settled if and only if there is no plan and no backup, or no backup and the targets are as the plan found them |
| Rollback.RestorableRuntime | forza_bootstrap/coordinator.py:4204-4316 | the runtime can be settled if and only if there is nothing of this transaction, or its child has a journal that is neither accepted nor given up |
| Rollback.RestorableThreading | forza_bootstrap/coordinator.py:4352-4363 | the licensed file can be settled unless its own transaction was given up |
| Rollback.RestorableTool | forza_bootstrap/coordinator.py:4370-4436 | the tool can be settled unless it was altered, or its record is lost |
| Rollback.RestorableMeans | forza_bootstrap/coordinator.py:4101-4436 | all owners can be settled if and only if the four of them are in states that can be withdrawn |
| Rollback.SettledMeans | forza_bootstrap/coordinator.py:4101-4436 | all owners are settled if and only if nothing that the transaction installed is left in the world |
| Rollback.AcceptedMeans | forza_bootstrap/coordinator.py:4265-4317 | only the named child of the runtime can be accepted |
| Rollback.Preflight | forza_bootstrap/coordinator.py:4593-4613 | all four owners are looked at, in order, before anything changes |
| Rollback.Settle | forza_bootstrap/coordinator.py:4621-4637 | an owner is withdrawn only when it is pending and all before it are settled, and it is settled afterwards |
| Rollback.SettleAndNote | forza_bootstrap/coordinator.py:4621-4637 | only the boundary of the owner is noted, when it is settled; what fails without interference leaves RECOVERY_REQUIRED |
| Rollback.RolledBackMeans | forza_bootstrap/coordinator.py:4101-4436 | an owner counts as rolled back, not as of no concern, if and only if what it had made was undone |
| Rollback.Attempt | forza_bootstrap/coordinator.py:4574-4642 | no owner's action runs before four clean inspections in the same attempt and before the earlier owners are settled; what is not pending stays as it is; in ROLLED_BACK nothing that the transaction installed is left; an accepted runtime is refused without a change, and an owner that is unclear gives the transaction up; killed anywhere all stay restorable or not, and without failures it is reached only when all are restorable and refused only when one is not |
| Rollback.RollBack | forza_bootstrap/coordinator.py:4574-4675 | the same for a caller with a copy: a stale or unconfirmed one changes nothing |
| Rollback.RollBackUntilDone | forza_bootstrap/coordinator.py:4574-4642 | repeated rollbacks, each killed anywhere, in the middle of a withdrawal as well, end; they end in ROLLED_BACK, with nothing left of the transaction and all four owners noted, if and only if every owner was in a state that can be withdrawn |
| Rollback.PatchedIsStuck | forza_bootstrap/coordinator.py:4130-4134 | after applied patches every repetition of the rollback fails |
| Publication.ReachableIsAtOne | forza_bootstrap/composition.py:133-316 | in every reachable state the recorded inode is under exactly one of the two names |
| Publication.Publisher.PublishComposed | forza_bootstrap/composition.py:133-215 | killed anywhere the state stays reachable and the recorded tree is the staged one; with no kill it succeeds exactly in the phases planned and published, or for a stage without a tool, and the journal and both names are what they should be |
| Publication.Publisher.InspectPublication | forza_bootstrap/composition.py:218-247 | accepts every reachable state with a journal, and answers with the recorded tree |
| Publication.Publisher.RollbackComposed | forza_bootstrap/composition.py:250-316 | never refused once there is a journal; completed, the tool is back under its stage name |
| Publication.Publisher.RunAll | forza_bootstrap/composition.py:133-316 | over any mix of killed publications and rollbacks every inspection is accepted; with no kill the end state is that of the commands one after the other |
| Publication.Publisher.RollbackUntilDone | forza_bootstrap/composition.py:250-316 | rerunning a killed rollback completes it |
| ComposedSetup.Setup.LoadActive | forza_bootstrap/composed_setup.py:258-297 | accepts exactly the active records whose phase and plans agree |
| ComposedSetup.AllowedMeans | forza_bootstrap/composed_setup.py:64-71 | a phase leads to the next one, and what is not over to ROLLING_BACK |
| ComposedSetup.ConsistentMeans | forza_bootstrap/composed_setup.py:279-291 | the plan of Finish is recorded while it is carried out and not before |
| ComposedSetup.Setup.PrepareComposed | forza_bootstrap/composed_setup.py:565-613 | completes if and only if each of its steps succeeds; the first one that does not decides what is written and whether the pointer moves; the active record can be loaded unless the token is the active one with another plan and that step is the record's; the owners agree with the records unless a new record stands over withdrawn ones; refused without a change when unconfirmed or in another phase |
| ComposedSetup.Setup.FinishComposed | forza_bootstrap/composed_setup.py:1018-1085 | completes if and only if each of its steps succeeds, with this plan recorded, the licensed file and then the runtime called, the latter only if it is not there; refused without a change when unconfirmed or in another phase; an interrupted runtime is refused before any call; every state it leaves can be loaded |
| ComposedSetup.Setup.RollbackComposed | forza_bootstrap/composed_setup.py:1088-1129 | completes if and only if each of its steps succeeds, and then exactly the owners with a journal that are not withdrawn yet were called: runtime, licensed file, tool; refused without a change when unconfirmed; every state it leaves can be loaded |
| ComposedSetup.Setup.UndoAll | forza_bootstrap/composed_setup.py:1112-1127 | the licensed file is withdrawn only after the runtime, and the tool only after both, wherever the attempts die |
| ComposedSetup.Setup.RunAll | forza_bootstrap/composed_setup.py:64-71 | over any killed commands: each does what it is for when it is confirmed, its phase fits and its steps succeed; the active record can be loaded, the phases of every transaction only advance and its plans stay, its owners are those its phase has behind it, and no owner of a transaction is installed after one of its owners was withdrawn or its rollback had begun |
| ComposedSetup.Setup.StrandedForGood | forza_bootstrap/composed_setup.py:258-297 | once the active record cannot be loaded every command is refused, changes nothing and calls no owner |
| ComposedSetup.StrandedRun | forza_bootstrap/composed_setup.py:594-607 | a run in which a rolled-back transaction's token is drawn again with another plan, the process dies before the record, and no command does anything again |
| ComposedSetup.CallsInOrder | forza_bootstrap/composed_setup.py:1018-1129 | the calls of one command for the active transaction keep the order of all calls: no install after a withdrawal of the same transaction |
| ComposedSetup.WrittenLoads | forza_bootstrap/composed_setup.py:594-607 | at every point of the writes, what can be loaded and whether owners agree is decided by the token, the plan and the directory |
| SnapshotCompare.IndexedRecords | forza_bootstrap/snapshot.py:179-210 | accepted if and only if every record is valid and no path repeats |
| SnapshotCompare.ValidIsCaptured | forza_bootstrap/snapshot.py:410-432 | the valid records are those that a capture can make |
| SnapshotCompare.CompareSnapshots | forza_bootstrap/snapshot.py:729-779 | accepted if and only if identities, versions, coverage, rules and privacy agree; expected are exactly the files that were to change and did, to what the rule says, unchanged those that were to stay and did, and unexpected all others, in the order of the paths; each refusal says which condition fails |
| SnapshotCompare.ListedHas | forza_bootstrap/snapshot.py:757-773 | a list holds exactly the records of its class, so every path is in exactly one |
| SnapshotCompare.ListedSorted | forza_bootstrap/snapshot.py:760 | each list is in the order of the paths |
| SnapshotCompare.LessMeans | forza_bootstrap/snapshot.py:760 | the order is that of strings: a beginning, or a smaller character where they part |
| SnapshotCompare.PlannedRules | forza_bootstrap/coordinator.py:2752-2796 | one rule per path, in order, with the wanted state and whether it is there already |
| SnapshotCompare.PlanAgrees | forza_bootstrap/coordinator.py:2752-2796 | with the rules of a plan, nothing is unexpected if and only if every record is as planned and what was to stay is as it was |
| LicensedSnapshot.InstallAsPlanned | forza_bootstrap/coordinator.py:2764-2781 | a completed install leaves the licensed file as the plan wants it if and only if it is not kept or had mode 0644 before |
| LicensedSnapshot.KeptOtherwise | forza_bootstrap/coordinator.py:2781 | a kept file of another mode makes every comparison find something unexpected |

## Left out

- Descriptors, `O_NOFOLLOW` walks, ownership checks, `fsync` and power loss: a crash is the death of a process between two system calls.
- Permission to traverse directories: modes are data that is compared.
- Outsiders who replace or delete files: the re-checks of device and inode after a rename only fire for them. Additions by outsiders are modelled for the licensed file.
- Names of siblings are values with a token; their spelling, and the JSON encoding of journals and states, are not modelled, and neither are the checks on the spelling of ids and digests.
- The PE header of a licensed file beyond its size limits.
- UTF-8: VDF texts are sequences of characters, and a text that is not UTF-8 is refused before the model begins.
- Python's recursion limit in the VDF parser and in the link search.
- Control characters and the length limit in member names and link targets, and member types other than the four kinds; compression and the tar reader between the guard and the member loop.
- The order of `graph.members` by path: every result holds for any order of the members.
- Extraction.VerifyTree: the second walk over the tree, which looks for changes during the check, is not modelled.
- Extraction.Scan: control characters, the length of names and link targets, and member types other than the four kinds are refused by the program before; the model begins with a member of one of the four kinds.
- Extraction.ExtractArchive: what the second scan writes before it is refused stays in a discarded stage and is not modelled.
- Licensed.PublishStage: the look at the destination after the rename, and its quarantine, are left out: without outsiders who replace files it always finds the stage's inode.
- Licensed.MoveBound: the look at the file after the rename is left out, for the same reason.
- SnapshotCompare.IndexedRecords: the spelling of paths and digests is not checked.
- SnapshotCompare.CompareSnapshots: errors are not replaced by one text when a record is private.
- The boundaries of the state are an enumeration of those that the coordinator writes, not arbitrary strings.
- Coordinator.Resume: the log lines are not modelled; the processes, the tree and the bundle that `validate_prefix` looks at besides the tool and the children, and the identities of the prefix and of commands, are checks that may fail.
- Sessions.RunAll: the first run of Prepare is not among the sessions: it creates its transaction itself, under the lease.
- Preparation.ResumePrepare: the contents of the snapshot, the downloads and `prepare.json` are steps that may fail; a tool under its name is the one of the plan, another one, or none.
- Rollback.Settle: the tool owner is a record with a presence.
- Finish.CallRuntime: of the runtime's children only the last one is modelled; older ones are over, and none of them is accepted.
- Publication.Publisher.PublishComposed: `publish_fm`'s own removal after a failed `fsync` is left out, and the stage is taken to be on the destination's file system.
- ComposedSetup.Setup.RollbackComposed: the checks of every authority record before the first change are one step that may fail.
- ComposedSetup.Setup.FinishComposed: the owners are calls that may be killed or fail; what they do is the other components' subject.
- Download, Docker, git, systemd, Flatpak, `/proc` probes, the command line, manifests and release rendering.

# A verified model of the vserver control daemon

`vcd` manages virtual private servers ("contexts") on a Linux-VServer host. Each RPC request runs in a
process of its own and works on a small SQLite database (vxdb) and on kernel contexts. This project
models that protocol and proves what it guarantees, and where it does not.

`dafny verify dfyconfig.toml` checks the whole project.

## How the model is organised

| part | modules |
|---|---|
| the store: tables, unique indexes, SQL statements, queries | `Schema`, `Store`, `Lookup`, `Validate`, `Wrappers` |
| users, capabilities, owners, and who is let in | `Auth`, `Rights`, `Admission` |
| vx.create's transaction and its id allocator | `Template`, `Alloc` |
| whole requests, as functions and as the daemon's methods | `Requests`, `Promises`, `Daemon` |
| what every reachable state satisfies and what callers may rely on | `Invariant`, `Reachable`, `Guarantees`, `Outcomes`, `Faults`, `Atomicity`, `Readback`, `Installation` |
| interleaved processes, the per-name lock, and requests without a lock | `Traces`, `Locking`, `Race`, `Refinement`, `Links` |
| automatic restart, start and stop over a kernel model | `Rebirth`, `Restarts`, `Lifecycle` |
| start-up computations and the schema check | `DiskUsage`, `Limits`, `Scheduler`, `Sanity`, `Accounts` |

A database is a set of rows; the type `Store.Db` admits only sets in which every declared unique index
holds. `Store.Exec` gives the meaning of one statement and `Store.Run` that of a transaction. The class
`Daemon.Vxdb` holds the current database and has one method per RPC; each keeps the invariant of the store,
equals a function in `Requests`, and promises what callers can observe afterwards. `Locking` cuts the same
statements into steps of concurrent processes; `Refinement` says exactly when both describe the same request.

## Main results

- Every state reachable by whole requests satisfies `Invariant.Inv` (`Reachable.ServeKeeps`), from an empty
  file on (`Installation.AlwaysValid`).
- As long as no creation commits to an id that somebody else has got meanwhile, a lock holder keeps its lock and
  its name's binding until it removes or renames the context itself, or exits (`Locking.LockKeepsBinding`);
  configuration rows never dangle (`Locking.NoOrphanRows`), and lookup and write act as one step
  (`Locking.WritesAreAtomic`). Names, directories and configuration change under the lock alone
  (`Locking.ChangesAreLocked`), by processes let in as owners (`Locking.WriterWasChecked`). One fresh creation at a time is enough for that (`Locking.OneInFlightSuffices`).
  Without it the property is false: `Race.TwoCreationsCollide` is a run, and `Locking.ForeignLossIff` says exactly
  which steps lose a foreign binding.
- However often a process comes to method_lock, it holds one lock at most and none while it is blocked, so there is
  no deadlock (`Locking.OneLockPerProcess`, `Locking.NoDeadlock`). An attempt goes on to F_LOCK if and only if lockfd
  was closed and F_TEST found the lock free (`Locking.AttemptsInRuns`); whoever finds it taken is refused for good
  (`Locking.RefusedForGood`), so a process that is blocked found its lock free when it tested it
  (`Locking.BlockedFoundFree`).
- A configuration row changes only for a caller who has logged in, holds the capability for that table by name, and
  owns the context (`Admission.ConfigurationNeeds`); a caller who has all that is let in
  (`Admission.AdmissionFault`). For every request the exact condition of every fault is given
  (`Faults.FaultIff`, `Faults.CreateFaultIff`).
- Only administrators choose a context's directory; anybody else rebuilds in place (`Promises.CreatedVdir`). After
  a creation the readers of the store find the template (`Readback.TemplateShown`).
- The owner check lies before the lock. A locked write is the whole request at that moment if and only if the
  request would still be admitted then, or nothing changes (`Refinement.LockedWriteIff`);
  `Refinement.RefusedYetWritten` is a run in which it would not. For the commit of a fresh creation the id must be
  the same as well (`Refinement.FreshWriteIff`).
- Requests without a lock keep all references intact in exactly the interleavings in which no insert comes after the
  removal of what it refers to (`Links.RunIntactIff`); each of the six ways to get there is a run
  (`Links.RemovalDangles`). Such an insert is the whole request at that moment if and only if the names still
  resolve to the ids found before, or nothing changes either way (`Links.PutIsWholeIff`); in `Links.ReusedIdMisleads`
  nothing dangles, and yet somebody else than the request named becomes the owner.
- The creation transaction commits exactly when `Template.Creatable` holds and then leaves exactly the
  template's rows (`Template.CreateOutcome`).
- New users and contexts start clean although ids are reused (`Guarantees.NewUserIsClean`,
  `Guarantees.NewContextIsClean`); the one exception, vx_cpuset, is real: four requests in a new installation
  show it (`Installation.CpusetInheritedFromScratch`).
- Automatic starts never outnumber restart requests in any interleaving (`Restarts.StartsBounded`). They are not
  always for the context that was asked for: the child resolves a name again after its wait
  (`Restarts.StartedWhichIff`), and two renamings make it start another context (`Restarts.MisdirectedStart`).
- The schema check either refuses or converges without changing a row (`Sanity.SanityCheck`). The users it creates
  are one administrator, if there was none, and a helper without any capability that counts; nobody else's rights
  change (`Accounts.StartRights`, `Accounts.NewHelper`).
- The disk-usage walk counts each inode once in any visiting order (`DiskUsage.Walk.Measure`).

## Where the code differs from what one would expect

- vx.create and vx.remove never delete from `vx_cpuset` (src/vcd/methods/vx/vx_create.c:414-428,
  src/vcd/methods/vx/vx_remove.c:52-69): a new context can inherit a cpuset.
- `find_free_xid` hands out 65535 exactly when 65534 is the highest id in use (`Alloc.HandsOutLastIff`), which
  creations and removals in a new installation lead to (`Installation.LastIdReached`), but `validate_xid` refuses it
  (src/vcd/validate.c:84-88). A context with that id exists but has no name for `vxdb_getname`
  (`Alloc.NameRoundTrip`).
- Two creations under different names can choose the same id; the second commit deletes the first
  context's rows.
- vg.add, vxdb.owner.add, vcd.user.caps.add and helper.restart look up and write without a lock: their rows can be
  left dangling, and a reused user id then owns a context (`Links.ReusedIdOwns`). When the id is reused before the
  insert, the wrong user becomes the owner at once (`Links.ReusedIdMisleads`).
- The child of helper.shutdown starts whatever context has the awaited context's former name
  (src/vcd/methods/helper/helper_shutdown.c:79, 127).
- `VCD_CAP_HELPER` is not in the capability list (src/vcd/lists.c:155), so a mask with that bit alone is
  passed by everybody (`Auth.CapableWithoutRows`).
- A context with a stored timeout of one second is never restarted automatically, because both poll loops
  need a poll of their own (`Rebirth.RestartPossibleIff`).
- vcd.user.set, vg.add, vx.remove, vx.rename and helper.shutdown can answer with a fault although they have
  changed the store (`Atomicity.FaultsAreAtomicIff`).
- There is no request that removes an init setting, so that setting alone cannot be taken back
  (`Outcomes.UnsetUndoesSetIff`).
- src/vshelper/main.c:238-239 uses NXF_PERSISTENT and VXF_PERSISTENT swapped.

## Assumptions

- A transaction that fails is rolled back, since the request process exits. In `Locking` a process may exit
  after any step, which covers every fault and every I/O error.
- No column of a unique index is NULL in a database file (`Sanity.Keyed`); there SQLite would take equal rows for
  different. No request writes such a row.
- Requests leave table `vcd` alone: its request counters are not modelled. The schema check includes it.
- The aggregate row in `find_free_xid` is read once; in the code the loop's lookups reuse the cursor.
- NXF_PERSISTENT and VXF_PERSISTENT are the same bit.
- The inode table stores inode numbers; the code stores a pointer into the walker's buffer.
- `lockf(F_LOCK)` returns with the lock; the code does not look at its result.
- CRLIM_INFINITY and CRLIM_KEEP are 2^64-1 and 2^64-2; the library that defines them is not part of the
  repository.
- Password digests, the outcome of file system work, kernel answers, the page size, the number of processors
  and the verdict of `validate_cpuset` are parameters.

## Model

| member | source | states |
|---|---|---|
| Schema.ClashIffAgree | src/vcd/vxdb-tables.h:50-117 | two rows clash exactly when they agree on one of the unique indexes declared for their table |
| Store.RunInsertAll | src/vcd/vxdb.c:412-432 | a list of INSERTs commits iff no two of the rows, and no row and the store, clash; then exactly these rows are added |
| Store.RunDeleteAll | src/vcd/methods/vx/vx_remove.c:52-71 | the DELETE script always commits and removes exactly the rows of that id in those tables |
| Store.HeldTogetherIff | src/vcd/vxdb-tables.h:50-117 | which two rows a store can hold together, table by table |
| Store.ExecFrame | src/vcd/vxdb.c:412-432 | a statement leaves every row of the other tables alone |
| Lookup.IdOf | src/vcd/vxdb.c:490-510 | the id of the only row with that name, 0 iff there is none |
| Lookup.KeyOf | src/vcd/vxdb.c:512-532 | the second column of the only row with that id, none iff there is no such row |
| Lookup.MaxId | src/vcd/auth.c:177-194 | an upper bound of the ids in use that is itself in use, 0 for an empty table |
| Auth.AuthCapable | src/vcd/auth.c:110-122 | the early-exit scan accepts iff every listed bit of the mask is held |
| Auth.CapableWithoutRows | src/vcd/lists.c:140-156 | a user without capability rows passes exactly the masks without a listed bit, HELPER alone included |
| Admission.AdmissionFault | src/vcd/methods.c:220-261 | which of no login, no capability, invalid name and no owner a caller is told, each iff; the capability is stated by name on the rows of user_caps, and the helper's requests need none |
| Admission.ConfigurationNeeds | src/vcd/methods/vxdb/vxdb_vx_limit_set.c:60 | whoever changes a row by a configuring or removing request is logged in, owns the row's context and has the capability that protects the row's table: DLIM, INIT, MOUNT, NET, BCAP, CCAP, CFLAG, RLIM, SCHED or UNAME |
| Admission.OtherChangesNeed | src/vcd/methods/vx/vx_create.c:588 | every other change takes CREATE for contexts, AUTH for users, groups and owners, and a login alone for restart records |
| Alloc.FindFreeXid | src/vcd/methods/vx/vx_create.c:275-321 | returns an id in 2..65535 that is bound to no name, and fails iff all of them are bound |
| Alloc.FirstFreeSpec | src/vcd/methods/vx/vx_create.c:298-307 | the search loop finds an unused id below 65535 iff there is one |
| Alloc.ChoiceIs | src/vcd/methods/vx/vx_create.c:275-321 | the id is 2 in an empty table, else one above the highest in use, and once 65535 is in use the lowest unused one |
| Alloc.NameRoundTrip | src/vcd/vxdb.c:490-532 | getxid and getname are mutually inverse on every bound id below 65535; 65535 has no name |
| Alloc.HandsOutLastIff | src/vcd/methods/vx/vx_create.c:293-296 | id 65535 is handed out exactly when 65534 is the highest in use |
| Alloc.BindingOneToOne | src/vcd/vxdb-tables.h:112-113 | two names never share a context and two contexts never share a name |
| Template.CreateVxdbEntries | src/vcd/methods/vx/vx_create.c:408-576 | the assembled buffer is the purge of 14 tables followed by the template's rows; refused iff the configuration is invalid |
| Template.AppendMounts | src/vcd/methods/vx/vx_create.c:459-506 | the mount loop appends one INSERT per mount, the two defaults for an empty list, and stops at the first invalid one |
| Template.AppendTags | src/vcd/methods/vx/vx_create.c:508-554 | a tag loop appends one INSERT per name and stops at the first unknown one |
| Template.DefaultsSpelledOut | src/vcd/methods/vx/vx_create.c:459-473 | writing the two default mounts out is the same as leaving the list empty |
| Template.ContextRowsIn | src/vcd/methods/vx/vx_create.c:452-564 | which rows a template stands for, table by table |
| Template.CreateFits | src/vcd/methods/vx/vx_create.c:408-576 | after the purge the rows fit iff the template repeats nothing and directory and name belong to no other context |
| Template.CreateOutcome | src/vcd/methods/vx/vx_create.c:408-576 | commits iff Creatable, and then the context has exactly the template's rows in the 14 tables while every other row is untouched |
| Invariant.CreateKeeps | src/vcd/methods/vx/vx_create.c:408-576 | a committed creation keeps both parts of the invariant |
| Invariant.CreateNames | src/vcd/methods/vx/vx_create.c:561-564 | a committed creation binds exactly this name to this id and keeps all other bindings |
| Invariant.RemoveKeeps | src/vcd/methods/vx/vx_remove.c:52-71 | removal keeps the invariant and unnames exactly this id |
| Invariant.RenameRows | src/vcd/methods/vx/vx_rename.c:55-57 | renaming changes the name row of this id and no other row |
| Invariant.RenameKeeps | src/vcd/methods/vx/vx_rename.c:45-60 | renaming keeps the invariant |
| Reachable.UserSetKeeps | src/vcd/methods/vcd/vcd_user_set.c:48-98 | vcd.user.set keeps the invariant, however it ends |
| Reachable.UserRemoveKeeps | src/vcd/methods/vcd/vcd_user_remove.c:45-51 | the cascading delete commits and keeps the invariant |
| Reachable.UserRemoveRows | src/vcd/methods/vcd/vcd_user_remove.c:45-51 | exactly the user, its capabilities and its owner rows disappear |
| Reachable.GroupRemoveRows | src/vcd/methods/vg/vg_remove.c:46-82 | exactly the group and its memberships disappear |
| Reachable.GroupAddKeeps | src/vcd/methods/vg/vg_add.c:46-90 | vg.add keeps the invariant, also when it stops half way |
| Reachable.OwnerAddKeeps | src/vcd/methods/vxdb/vxdb_owner_add.c:43-57 | vxdb.owner.add, run as a whole, adds no dangling reference |
| Reachable.ConfigureCallKeeps | src/vcd/methods/vxdb/vxdb_mount_set.c:45-73 | the per-context writers keep the invariant |
| Reachable.HelpersKeep | src/vcd/methods/helper/helper_restart.c:41-49 | helper.restart and helper.shutdown keep the invariant |
| Reachable.CreateCallKeeps | src/vcd/methods/vx/vx_create.c:581-670 | vx.create keeps the invariant, however it ends |
| Reachable.CreateCases | src/vcd/methods/vx/vx_create.c:581-670 | a creation either leaves the store alone or commits its script for a valid directory |
| Reachable.HandleKeeps | src/vcd/methods.c:220-261 | every request of every caller keeps the invariant |
| Reachable.ServeKeeps | src/vcd/methods/vx/vx_remove.c:52-71 | in every state of every run: names one-to-one, per-context, owner, group and restart rows refer to named contexts, capability and owner rows to users, memberships to groups |
| Guarantees.NewUserIsClean | src/vcd/methods/vcd/vcd_user_remove.c:45-51 | in any run with id reuse a new user passes no mask with a listed bit, has no owner row, and owns nothing unless it is an administrator |
| Guarantees.NewContextIsClean | src/vcd/methods/vx/vx_create.c:414-430 | in any run a new context has exactly its template's rows, plus possibly a leftover cpuset row |
| Guarantees.VdirOfContext | src/vcd/vxdb.c:534-559 | every context has exactly one valid directory, shared with no other; the fallback is never taken |
| Guarantees.VdirsDistinct | src/vcd/vxdb.c:534-559 | two existing names have the same directory iff they are the same name |
| Promises.CreatedVdir | src/vcd/methods/vx/vx_create.c:640-659 | a successful vx.create puts the context into the directory an administrator names, else keeps the old one, else takes vbasedir/name; whoever is no administrator rebuilds an existing context in place |
| Guarantees.RenameSucceedsIff | src/vcd/methods/vx/vx_rename.c:45-60 | vx.rename succeeds iff the old name exists and the new one is valid and unused; never a database error |
| Guarantees.RenameKeepsContext | src/vcd/methods/vx/vx_rename.c:45-60 | the new name reaches the same id, directory and configuration; the old one reaches nothing |
| Guarantees.RenameUndone | src/vcd/methods/vx/vx_rename.c:45-60 | renaming back restores the store exactly |
| Guarantees.RemoveUndoesCreate | src/vcd/methods/vx/vx_remove.c:43-74 | removing a fresh context restores the store exactly |
| Installation.AlwaysValid | src/vcd/vxdb.c:202-302 | from an empty file on, every sequence of requests leaves a store that satisfies the invariant |
| Installation.CpusetInherited | src/vcd/methods/vx/vx_remove.c:52-69 | create, cpuset, remove, create: for every administrator and any names the second context has the first one's cpuset |
| Installation.CpusetInheritedFromScratch | src/vcd/methods/vx/vx_create.c:414-428 | the same run in a new installation |
| Installation.LastIdReached | src/vcd/methods/vx/vx_create.c:293-296 | a run of creations and removals from a new installation after which the allocator hands out 65535 |
| Rights.UserSetEffect | src/vcd/methods/vcd/vcd_user_set.c:48-98 | afterwards the user is an administrator iff asked for, logs in with the new password only, and nobody else's rights change |
| Rights.UserRemoveEffect | src/vcd/methods/vcd/vcd_user_remove.c:42-56 | the user is unknown, its id holds and owns nothing, and nobody else's rights change |
| Rights.CapsAddEffect | src/vcd/methods/vcd/vcd_user_caps_add.c:43-57 | for every user and capability: held afterwards iff held before or just granted; logins and owners unchanged |
| Rights.CapsRemoveEffect | src/vcd/methods/vcd/vcd_user_caps_remove.c:43-65 | for every user and capability: held afterwards iff held before and not just revoked |
| Rights.OwnerAddEffect | src/vcd/methods/vxdb/vxdb_owner_add.c:43-57 | for every user and context: owner afterwards iff owner before or just added |
| Rights.OwnerRemoveEffect | src/vcd/methods/vxdb/vxdb_owner_remove.c:43-65 | for every user and context: owner afterwards iff owner before and not just removed, administrators excepted |
| Rights.GroupAddEffect | src/vcd/methods/vg/vg_add.c:46-90 | for every group and context: member afterwards iff member before or just added; a new group starts empty although ids are reused |
| Rights.GroupRemoveEffect | src/vcd/methods/vg/vg_remove.c:46-82 | for every group and context: member afterwards iff member before and not just removed |
| Outcomes.CreateSucceedsIff | src/vcd/methods/vx/vx_create.c:606-667 | the exact condition under which vx.create succeeds |
| Outcomes.DbErrorIff | src/vcd/methods/vg/vg_add.c:73-87 | the exact set of requests that end in a database error in a reachable state |
| Faults.FaultIff | src/vcd/methods/vxdb/vxdb_owner_remove.c:43-65 | for every request but vx.create and every fault: the request answers with it iff its condition holds, which says what is wrong and what was checked before |
| Faults.CreateFaultIff | src/vcd/methods/vx/vx_create.c:606-667 | the same for vx.create |
| Outcomes.ConfigureEffect | src/vcd/methods/vxdb/vxdb_mount_set.c:53-70 | an accepted setting writes its register and nothing else |
| Outcomes.LastWriteWins | src/vcd/methods/vxdb/vxdb_mount_set.c:65-70 | a later setting for the same register makes an earlier one irrelevant |
| Outcomes.SettingsCommute | src/vcd/methods/vxdb/vxdb_mount_set.c:65-70 | settings for different registers or contexts commute |
| Outcomes.UnsetUndoesSetIff | src/vcd/methods/vxdb/vxdb_mount_remove.c:46-62 | removing a setting restores the store iff its register was empty before and the table has a removing request, as all but init have |
| Readback.BucketGoverns | src/vcd/methods/vxdb/vxdb_vx_sched_set.c:54-81 | an accepted bucket governs its processor at the next start; a bucket for all governs exactly the processors without their own |
| Readback.LimitShown | src/vcd/methods/vxdb/vxdb_vx_limit_set.c:81-112 | a limit that was set is the only one of its type and is shown as set, or in whole pages below 2^54 |
| Readback.MountShown | src/vcd/methods/vxdb/vxdb_mount_set.c:45-70 | after vxdb.mount.set the context has exactly one mount there, read with the given source, type and options, or "none", "auto" and "defaults" |
| Readback.TemplateMountSet | src/vcd/methods/vx/vx_create.c:459-506 | setting a template's mount by hand stores the row vx.create stores for it |
| Readback.CpusetShown | src/vcd/methods/vxdb/vxdb_vx_cpuset_set.c:46-66 | after vxdb.vx.cpuset.set the context has exactly one cpuset, read as given |
| Readback.TemplateShown | src/vcd/methods/vx/vx_create.c:452-564 | after a creation or rebuild the readers find the template's init, halt and reboot commands and timeout, its mounts or the two defaults, its capabilities and flags, and no other setting but a cpuset |
| Atomicity.FaultsAreAtomicIff | src/vcd/methods/vcd/vcd_user_set.c:74-84 | a request that answers with a fault has changed the store in exactly five situations: two can be checked beforehand, the other three are that vx.remove, vx.rename or helper.shutdown had something to write and the work after the write failed |
| Atomicity.Isolation | src/vcd/methods.c:198-218 | whatever a caller without AUTH who is no administrator asks for, only rows of contexts it owns, and restart records, can change |
| Daemon.Vxdb.Transaction | src/vcd/vxdb.c:412-432 | the statements take effect together or not at all |
| Daemon.Vxdb.UserSet | src/vcd/methods/vcd/vcd_user_set.c:46-100 | keeps the invariant; on success the administrator flag and the only accepted password are as asked for and nobody else's rights change; never a database error |
| Daemon.Vxdb.UserRemove | src/vcd/methods/vcd/vcd_user_remove.c:42-56 | keeps the invariant; succeeds iff the user exists, who is then unknown, while nobody else's rights change |
| Daemon.Vxdb.CapsAdd | src/vcd/methods/vcd/vcd_user_caps_add.c:43-57 | keeps the invariant; succeeds iff capability and user exist; exact set of capabilities of everybody afterwards |
| Daemon.Vxdb.CapsRemove | src/vcd/methods/vcd/vcd_user_caps_remove.c:43-65 | keeps the invariant; exact success condition and capabilities of everybody afterwards |
| Daemon.Vxdb.GroupAdd | src/vcd/methods/vg/vg_add.c:46-90 | keeps the invariant; exact memberships afterwards; a database error iff the context is a member already |
| Daemon.Vxdb.GroupRemove | src/vcd/methods/vg/vg_remove.c:46-82 | keeps the invariant; exact memberships afterwards; a fault changes nothing |
| Daemon.Vxdb.OwnerAdd | src/vcd/methods/vxdb/vxdb_owner_add.c:43-57 | keeps the invariant; succeeds iff user and context exist; exact owners of everything afterwards |
| Daemon.Vxdb.OwnerRemove | src/vcd/methods/vxdb/vxdb_owner_remove.c:43-65 | keeps the invariant; exact success condition and owners of everything afterwards |
| Daemon.Vxdb.MountSet | src/vcd/methods/vxdb/vxdb_mount_set.c:43-73 | keeps the invariant; exact success condition; afterwards exactly one mount there, read with the given source, type and options or their defaults, and nothing else changes |
| Daemon.Vxdb.LimitSet | src/vcd/methods/vxdb/vxdb_vx_limit_set.c:81-112 | keeps the invariant; exact success condition; the converted limit is the only change |
| Daemon.Vxdb.Configure | src/vcd/methods/vxdb/vxdb_vx_cpuset_set.c:46-66 | keeps the invariant; the setting is written to its register and nothing else changes; a fault changes nothing |
| Daemon.Vxdb.Unconfigure | src/vcd/methods/vxdb/vxdb_mount_remove.c:40-62 | keeps the invariant; exactly the named rows of that context disappear |
| Daemon.Vxdb.HelperRestart | src/vcd/methods/helper/helper_restart.c:41-49 | keeps the invariant; succeeds iff the id has a name; the record is the only change |
| Daemon.Vxdb.HelperShutdown | src/vcd/methods/helper/helper_shutdown.c:49-83 | keeps the invariant; exactly the record disappears; a child is due iff the change count says that there was one |
| Daemon.Vxdb.VxRemove | src/vcd/methods/vx/vx_remove.c:43-83 | keeps the invariant; exactly the rows of that id in the 16 tables disappear, also when the work after the write fails |
| Daemon.Vxdb.VxRename | src/vcd/methods/vx/vx_rename.c:45-70 | keeps the invariant; exact success condition; the new name reaches the same id and directory, nothing else changes |
| Daemon.Vxdb.CreateChecks | src/vcd/methods/vx/vx_create.c:606-659 | who may create or rebuild what, and which directory results: the given one for an administrator who names one, else the stored one, else vbasedir/name |
| Daemon.Vxdb.VxCreate | src/vcd/methods/vx/vx_create.c:581-670 | keeps the invariant; a fault changes nothing; success leaves exactly the template's rows of that id and everything else, in the directory that was stored unless an administrator names one |
| Daemon.Vxdb.Dispatch | src/vcd/methods.c:220-261 | keeps the invariant; a fault leaves the store alone but for five situations; an ordinary user changes only rows of contexts it owns, and restart records; a configuration row changes only for an owner with the capability of its table |
| Daemon.Vxdb.ServeAll | src/vcd/methods.c:220-261 | any sequence of requests keeps the invariant |
| Locking.StepKeeps | src/vcd/methods.c:175-218 | every step that does not commit a creation to a taken id keeps the lock invariant |
| Locking.ForeignLossIff | src/vcd/methods/vx/vx_create.c:343-345 | a step takes away a foreign binding iff it commits a creation to an id that another name has by then |
| Locking.RunKeeps | src/vcd/methods.c:175-218 | the lock invariant in every state of every interleaving up to the first commit of a creation to a taken id |
| Locking.OneInFlightSuffices | src/vcd/methods/vx/vx_create.c:343-345 | no commit hits a taken id in a run with at most one fresh creation between choice and commit at a time |
| Locking.OwnWriteKeepsIff | src/vcd/methods/vx/vx_rename.c:45-60 | a lock holder's own write keeps its name's binding iff it is no removal and no renaming that takes effect |
| Locking.LockKeepsBinding | src/vcd/methods.c:175-218 | a lock holder that resolved its name keeps the lock, and the name stays bound to the same id, until it removes or renames the context itself or exits, in every run without a commit to a taken id |
| Locking.NoOrphanRows | src/vcd/methods/vxdb/vxdb_mount_set.c:53-68 | configuration rows always refer to named contexts, although lookup and insert are separate steps, in every run without a commit to a taken id |
| Locking.WritesAreAtomic | src/vcd/methods/vx/vx_rename.c:49-57 | lookup and write of a lock holder act as one step at the moment of the write; a fresh creation commits under an unused id |
| Locking.OwnerCheckInRuns | src/vcd/methods.c:212-213 | in every run the owner check lets a process on iff its user owns the context at that moment, or it creates |
| Locking.WriterWasChecked | src/vcd/methods/vx/vx_rename.c:45-57 | in every run a write comes from a process that was let in as an owner, unless it creates, and, if it renames, has afterwards seen the new name unused under its lock |
| Locking.ChangesAreLocked | src/vcd/methods.c:175-218 | in every run without a commit to a taken id, names, directories and configuration change in writes alone, of the one process that holds the lock, and only for the id it has looked up or chosen |
| Locking.MutualExclusion | src/vcd/methods.c:190-195 | at most one process holds the lock of a name, in every run |
| Locking.OneLockPerProcess | src/vcd/methods.c:180-195 | in every run, however often and about whatever names a process comes to method_lock, it holds one lock at most, and none while it is blocked |
| Locking.AttemptsInRuns | src/vcd/methods.c:175-196 | in every run an attempt goes on to F_LOCK iff lockfd was closed and no other process had the lock; otherwise it is refused at once and an own attempt ends the job; internal calls change nothing |
| Locking.BlockedFoundFree | src/vcd/methods.c:192-195 | whoever is blocked in F_LOCK found the lock free when it tested it |
| Locking.RefusedForGood | src/vcd/methods.c:192-193 | a process that finds the lock of its context taken never looks up or writes anything in any continuation |
| Locking.NoDeadlock | src/vcd/methods.c:180-195 | no circle of waiting processes occurs in any run |
| Locking.ReleaseUnblocks | src/vcd/methods.c:190-195 | when the holder exits, a waiting process can take the lock |
| Race.TwoCreationsCollide | src/vcd/methods/vx/vx_create.c:343-430 | a run, for any two names and plain templates, in which the second commit wipes out the first context |
| Race.StaleAdmission | src/vcd/methods.c:212-216 | a run in which a user who lost its only claim to a context between owner check and lock still writes its configuration |
| Links.SoloIsRequest | src/vcd/methods/vxdb/vxdb_owner_add.c:43-57 | the steps of an unlocked request, undisturbed, are the whole request |
| Links.InsertSafeIff | src/vcd/methods/vxdb/vxdb_owner_add.c:50-52 | an insert keeps all references intact iff what it refers to exists at that moment: context and user, context and group, context, or user |
| Links.RunIntactIff | src/vcd/methods/vg/vg_add.c:54-84 | in every interleaving with whole requests and with late writes of other unlocked requests, references are intact iff no insert came after the removal of what it refers to |
| Links.RequestsAreHarmless | src/vcd/methods.c:220-261 | every whole request, once admitted, is a step that other processes may take in these runs |
| Links.LateWritesAreHarmless | src/vcd/methods/vcd/vcd_user_remove.c:42-56 | the writes of the removing requests without a lock keep the invariant for whatever id was looked up whenever |
| Links.PutIsWholeIff | src/vcd/methods/vxdb/vxdb_owner_add.c:43-57 | in every interleaving an insert equals the whole request at that moment iff the names still resolve to the ids looked up before, or nothing changes either way |
| Links.ReusedIdMisleads | src/vcd/auth.c:177-194 | a run without a dangling row: the owner to be is removed between lookup and insert, the next user gets the id and becomes the owner, while the whole request would be refused |
| Links.RemovalDangles | src/vcd/methods/vcd/vcd_user_caps_add.c:47-52 | lookup, removal, insert as a run, for each of the six pairs of request and removal |
| Links.ReusedIdOwns | src/vcd/auth.c:177-194 | with a dangling owner row of the next user id, the next user owns that context |
| Refinement.LockedWriteIff | src/vcd/methods.c:212-216 | a locked write equals the whole request at that moment, owner check included, iff the request would still be admitted or nothing changes |
| Refinement.FreshWriteIff | src/vcd/methods/vx/vx_create.c:661-667 | a fresh creation's commit equals the whole request at that moment iff that would still be admitted and choose the same id, or neither changes the store |
| Refinement.RefusedYetWritten | src/vcd/methods.c:212-216 | a run whose write changes the store although the whole request would be refused at that moment |
| Rebirth.WaitForExit | src/vcd/methods/helper/helper_shutdown.c:86-128 | starts iff the network context is seen gone at poll i and the context at poll j, i below j, both within the timeout, nothing failing before; at most timeout polls in all |
| Rebirth.RestartPossibleIff | src/vcd/methods/helper/helper_shutdown.c:77-121 | an automatic start is possible for every stored timeout except 1 |
| Rebirth.StartsAtPollIff | src/vcd/methods/helper/helper_shutdown.c:70-121 | a start is possible at poll j iff j is at least 2 and at most the stored timeout, or 15 if none is stored |
| Restarts.StepsAreRequests | src/vcd/methods/helper/helper_restart.c:41-47 | lookup and write with nothing in between are helper.restart and helper.shutdown; the child keeps the awaited context's name |
| Restarts.OtherRequests | src/vcd/methods/helper/helper_shutdown.c:62-68 | every other request keeps names in order and adds no restart record, so the runs cover them all |
| Restarts.RunBalanced | src/vcd/methods/helper/helper_shutdown.c:62-68 | in every interleaving each record is merged, consumed, cleared or pending, and each consumed one started something, was given up or is waited for |
| Restarts.StartsBounded | src/vcd/methods/helper/helper_shutdown.c:62-128 | starts on behalf of a context never outnumber its consumed records, nor those its unmerged requests; the same for all starts together; without a request nothing starts |
| Restarts.StartedWhichIff | src/vcd/methods/helper/helper_shutdown.c:79-127 | the child starts the context its name is bound to when the wait ends, and nothing if the wait did not end with both gone: the awaited one iff the name is still bound to it |
| Restarts.MisdirectedStart | src/vcd/methods/helper/helper_shutdown.c:79-127 | a run with two renamings in which a context is started that nobody asked to restart |
| Restarts.RequestBetweenConsumptions | src/vcd/methods/helper/helper_restart.c:44-49 | between two shutdowns that consume a record, a new request was recorded |
| Lifecycle.VxStart | src/vcd/methods/vx/vx_start.c:56-122 | pins are cleared before the running check; whatever nx_create and vx_create do, no earlier taskless context or network context is left; a new context iff vx_create succeeds |
| Lifecycle.HelperStartupLoop | src/vshelper/main.c:236-269 | at most 15 polls, and both exits clear the pins |
| Lifecycle.HistoryKeeps | src/vshelper/main.c:89-148 | in every history a pinned context or network context is being set up or was given up early by its helper |
| Lifecycle.NoPinOutlivesStart | src/vcd/methods/vx/vx_start.c:59-70 | in every history no taskless context and no taskless network context survives the next vx.start, and only what that start created is pinned afterwards |
| Lifecycle.PinsCleared | src/vshelper/main.c:89-148 | halt and restart events and both ways out of the poll loop clear the pins: what has tasks stays, the rest is gone |
| Lifecycle.LastTaskEnds | src/vcd/methods/vx/vx_start.c:59-70 | a context ends with its last task iff it is not pinned |
| Lifecycle.VxStop | src/vcd/methods/vx/vx_stop.c:45-92 | succeeds iff the context was alive, the halt command worked and the context was seen gone within timeout polls |
| Lifecycle.VxRestart | src/vcd/methods/vx/vx_restart.c:30-36 | start is reached iff the stop saw the context gone within the timeout |
| Lifecycle.Process.Invoke | src/vcd/methods.c:175-218 | an internal call never takes the lock; exact conditions for a fault and for holding the lock; nothing happens after a fault |
| Lifecycle.ServeRequest | src/vcd/methods.c:215-216 | one external request makes at most one lock attempt, however its calls are nested: one iff it is admitted and its own method has M_LOCK; it ends with the lock iff that was free and is refused otherwise |
| DiskUsage.FirstVisitIff | src/vcd/methods/helper/helper_startup.c:163-176 | the link-count and table test recognises exactly the first visit of an inode |
| DiskUsage.Walk.Measure | src/vcd/methods/helper/helper_startup.c:150-227 | the counters are the number and the block sum of the distinct inodes of the context, modulo 2^32 |
| DiskUsage.WrapIsMod | src/vcd/methods/helper/helper_startup.c:58-59 | the 32-bit counters are the exact values modulo 2^32 |
| DiskUsage.OrderIrrelevant | src/vcd/methods/helper/helper_startup.c:150-179 | a consistent tree stays one in any order of visits, and the counters come out the same |
| DiskUsage.MeasureTwice | src/vcd/methods/helper/helper_startup.c:217-227 | two walks over the same files in different orders end with the same counters |
| DiskUsage.DiskLimits | src/vcd/methods/helper/helper_startup.c:181-261 | the limits set are never below the usage, and are the configured ones where those are large enough |
| Limits.ConvertForSet | src/vcd/methods/vxdb/vxdb_vx_limit_set.c:97-102 | each value is converted at most once, and only for memory limits |
| Limits.ConvertForGet | src/vcd/methods/vxdb/vxdb_vx_limit_get.c:95-116 | every row once, converted back only for memory limits |
| Limits.StoredPages | src/vcd/methods/vxdb/vxdb_vx_limit_set.c:30-35 | what is stored, including the high bits that are lost from 2^54 on |
| Limits.SetGetIff | src/vcd/methods/vxdb/vxdb_vx_limit_get.c:30-35 | set then get returns the greatest multiple of pagesize/1024 not above the input iff the input is below 2^54 |
| Limits.SetOfGet | src/vcd/methods/vxdb/vxdb_vx_limit_get.c:30-35 | setting what get returned stores the same pages |
| Limits.OrderKept | src/vcd/methods/vxdb/vxdb_vx_limit_set.c:30-35 | soft stays below max |
| Limits.LimitRoundTrip | src/vcd/methods/vxdb/vxdb_vx_limit_set.c:37-49 | other limit types come back unchanged |
| Scheduler.ContextScheduler | src/vcd/methods/helper/helper_startup.c:396-460 | if all kernel calls succeed, every processor has its own row's bucket, else that of the row for all, else what it had |
| Validate.NameIsComponent | src/vcd/methods.c:186-189 | a valid context name is one path component, so lock files and directories named after it stay where they are put |
| Validate.TokenBucketIff | src/vcd/validate.c:171-183 | the accepted buckets in the positive: rates at most their intervals and the maximum, idle rate and interval both given or both left out |
| Scheduler.IdleBitsIff | src/vcd/validate.c:171-183 | for accepted buckets the idle-time bits are set iff fillrate2 is positive iff interval2 is positive |
| Sanity.CheckUnique | src/vcd/vxdb.c:105-131 | creates exactly the missing indexes of a table; dies iff the data forbids one |
| Sanity.CheckTable | src/vcd/vxdb.c:133-152 | creates a missing table with its indexes or completes an existing one |
| Sanity.CheckTables | src/vcd/vxdb.c:202-302 | the loop over all tables completes the file; dies iff some table cannot be indexed |
| Sanity.CheckUsers | src/vcd/vxdb.c:154-200 | adds an administrator and the helper user where missing, and never removes a row |
| Accounts.StartRights | src/vcd/vxdb.c:154-200 | after the user checks somebody is an administrator iff it was one before, or it is admin and there was none; whoever is not created keeps all rights |
| Accounts.NewHelper | src/vcd/vxdb.c:186-192 | a new vshelper is no administrator, owns nothing and passes exactly the masks without a listed bit |
| Accounts.NewAdmin | src/vcd/vxdb.c:160-184 | a new admin holds every listed capability and owns every context |
| Accounts.FreshContents | src/vcd/vxdb.c:202-302 | a new installation holds exactly the group onboot, admin with the fourteen capabilities by name, and vshelper |
| Sanity.SanityCheck | src/vcd/vxdb.c:202-302 | survives iff the file is repairable; then every table, index, the version and both users are in place, no row is lost, and a second run changes nothing |
| Sanity.StartUp | src/vcd/vxdb.c:202-302 | the same over the 21 declared tables; an empty file becomes a store that satisfies the invariant |
| Sanity.AdminCreatableIff | src/vcd/vxdb.c:154-200 | the administrator can be created iff no plain user has that name and no capability row is left over for the next id |
| Sanity.UsersKeepInv | src/vcd/vxdb.c:154-200 | the users the check adds fit the invariant of the store |
| Sanity.FreshStart | src/vcd/vxdb.c:202-302 | an empty file is repairable and becomes a store that satisfies the invariant |

## Left out

- Daemon.Vxdb.Configure: one case, PlainSet, for the remaining vxdb setters, whose own parameter checks are taken
  as passed; they differ from the modelled ones only in their columns.
- Daemon.Vxdb.Unconfigure: the removers' own parameter checks are taken as passed.
- DiskUsage.Walk.HandleFile: running out of memory in the inode table is not modelled.
- Read-only methods (get, list, status, templates) other than vxdb.vx.limit.get: they change nothing.
- vg.vx.start, stop, restart and reboot: loops of internal calls over the members of a group.
- context_caps_and_flags, context_resource_limits, uname, mounts, namespaces and cpuset files at start-up:
  sequences of kernel calls without state of their own.
- validate_cpuset: its meaning depends on a tokenizer outside the repository; its verdict is a parameter.
- The file system work of vx.create and vx.remove: only its outcome is modelled.
- Reading the template configuration file: a file that cannot be parsed counts as failed file system work.
- Database I/O errors and failing queries in the sequential model; in the interleaved model they are exits.
- Links.FirstLook: looking up a group and creating a missing one is one step.
- The child of helper.shutdown starts the context without a lock; the start itself is in Lifecycle.
- Password hashing, the RPC layer, configuration files, daemonizing and the command-line clients.

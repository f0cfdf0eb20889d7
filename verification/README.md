# Verified models of the dispatcher's core

The repository runs a ledger of events and decides from it what to start, retry, hold, pack, compare and clean
up. This project models the parts of it whose comments and docstrings promise something that spans many calls,
and proves those promises for all inputs, all runs and all interleavings. Where a promise turns out to be false
of the code, the code is modelled as it is, a lemma exhibits an input on which it fails, and another says exactly
when it holds.

Code that computes a value is a function here; code that updates locals in a loop is a method with invariants;
objects whose fields are updated in place are classes. Each such method is proved equal to a function, and the
properties are lemmas about that function. Protocols with several processes or crashes are state machines.

| modules | what they model |
|---|---|
| `Json`, `StrictSchema`, `StrictShape`, `StrictDialect`, `StrictSound`, `StrictComplete`, `StrictTwice` | the schema compiler `strict_schema` and its decoder `unnull` |
| `Attempts`, `AttemptsBudget`, `AttemptsRun`, `AttemptsReading`, `AttemptsJoin`, `AttemptsRetry`, `AttemptsFate`, `AttemptsRevived`, `AttemptsRelabel`, `AttemptsOrder` | the bounded retry classifier `history` |
| `Since`, `SinceWaves`, `SinceReplay`, `SinceExactly`, `Overlap` | `wave_blocker` and the incremental replay `_since` |
| `Reaper` | inventory, dry check and removal of a tree |
| `Backup` | bounded packing of loose objects |
| `CronKill`, `CronGrace`, `CronEnds`, `Tail` | the kill loop of a bounded cron run, and its bounded stderr tail |
| `BranchMoves`, `BranchHistory`, `BranchSafety`, `BranchAlone`, `Artifacts` | refreshes and recuts of a branch, and the repinning of artifacts |
| `CiShadow`, `CiPass`, `CiRunner` | shadow runs of hosted checks under crashes |
| `InfraGate`, `InfraLaws` | the retry ladder for machine failures |
| `TomlDoc`, `TomlComment`, `TomlQuotes`, `Balance`, `BalanceTargets`, `BalanceMeaning`, `BalanceKept`, `BalanceRewrite` | the line editor of the model configuration |
| `CronInterval` | the shortest gap of a cron schedule |
| `Slugs`, `Backfill` | the grouping of lessons into problems |
| `BaseRed`, `BaseRedLaws` | which failing checks of the base are known |
| `Seqs` | sequence operations: filters, first matches, stable sorting |

What the code does and its own text does not say, or says otherwise:

- `_since` claims the answer of re-running `wave_blocker` on every prefix (src/autodispatch.py:142-157). That is so
  of the sibling scan; but a spec that a waiver or its own build has freed is dated from a later sibling's settling
  (`SinceExactly.WaiverMisdated`, `SinceExactly.BuildMisdated`), and `SinceExactly.SinceExact` says exactly when.
- SIGKILL is promised "only if a member survives the grace" (src/cron_run.py:27-31). The grace runs from the
  deadline, not from SIGTERM: a poll that comes at all after the deadline leaves the group less than its grace
  (`CronGrace.KillAfterOneSecond`), and `CronGrace.KillTooSoonExactly` says over whole runs exactly when. At the
  extreme both signals leave in one iteration (`CronKill.TermAndKillTogether`); a SIGTERM sent because of the
  wrapper's own signal waits in full (`CronGrace.WrapperSignalWaits`).
- A clean dry pass does not foretell the real one: it does not ask whether a directory may be written
  (`Reaper.CleanButNotRemovable`; the contract of `Reaper.Disk.Remove` is the exact condition).
- `restore_artifacts` leaves a file whose write stopped part-way (src/branch_refresh.py:273-277):
  `Artifacts.Content.Pin` states exactly when the files are as they were.
- State files are named by twelve digits of a commit (src/ci_shadow.py:223-226). Two commits of one pass that share
  them lose one file: `CiShadow.TwinsLoseOne`, and exactly when: `CiShadow.OverwrittenExactly`.
- Generated slugs need not fit the pattern that pre-assigned ones must (scripts/problem_backfill.py:40,103-107):
  `Slugs.NewSlugMatches`, `Slugs.NewSlugBound`, `Slugs.SuffixOverflows`.
- The text of a hold says that a decision lifts it (src/dispatch.py:1204-1206); with a ladder of more than four rows or an
  unreadable last timestamp it does not: `InfraGate.UnreadableStaysHeld`, `InfraGate.DecisionReleases`.
- The recut's tag covers the tip it replaces, not its own commit when a failed gate takes that back
  (src/branch_refresh.py:525-533): `BranchAlone.RolledBackTipUntagged`, and exactly when in every run:
  `BranchSafety.RolledBackNamed`.
- A refused launch uses up no attempt, and may do so later (src/attempts.py:171-195): when a failure that is no
  refusal, its end, or its death is recorded after all (`AttemptsRun.RefusedExactly`, `AttemptsRun.RevivedExactly`).
  The limit on the launches of a whole run has that many more (`AttemptsRun.RunBudget`), holds where there are none
  (`AttemptsRun.RunWithinBudget`), and there can be any number of them (`AttemptsRevived.RefusalsTakenBack`).
- A closed schema lists only declared names as required (src/dispatch.py:447-448), so a decoded answer can lack a
  required name that is not declared: `StrictSound.UndeclaredRequired`, and exactly when: `StrictSound.SoundExactly`.
- The chunk bounds can reach zero when the object floor is set below one (src/backup.py:649-651):
  `Backup.BoundReachesZero`, `Backup.AdaptPositive`.

## Model

| member | source | states |
|---|---|---|
| StrictSound.Sound | src/dispatch.py:422-463 | whatever value the strict schema accepts, the original schema accepts it once decoded, for every schema of the fragment and every JSON value, nested to any depth |
| StrictDialect.InDialect | src/dispatch.py:409-450 | whatever JSON value is compiled, the result at every depth has no refused keyword and no `oneOf`, outside the names of properties and definitions, and every object schema in it lists exactly its properties as required, each once, and allows no other |
| StrictDialect.KeepsAll | src/dispatch.py:422-450 | nothing else is lost or added: every keyword that is not refused is kept at every depth with what stands under it, all alternatives under `anyOf`, all names of name maps, null added to types, enums and alternatives at most |
| StrictSound.SoundExactly | src/dispatch.py:432-463 | in the fragment but for undeclared required names, whatever the strict schema accepts is, once decoded, accepted by the original if and only if every object in it, at any depth, meets a schema that is not closed or declares each name it requires |
| StrictSound.UndeclaredRequired | src/dispatch.py:432-448 | a schema that requires a name it does not declare, and an answer that is accepted and whose decoding is not |
| StrictComplete.Complete | src/dispatch.py:428-463 | every tidy value the original accepts has a null-filled form that the strict schema accepts and that decodes to exactly that value, when every optional property can be null |
| StrictComplete.CanNullExact | src/dispatch.py:435-446 | the type, anyOf and enum rules make an optional property accept null exactly when its schema has no other `const` and no `type` beside `anyOf` that refuses null |
| StrictComplete.OptionalKept | src/dispatch.py:435-449 | an optional property that the rules cannot make nullable is in every decoded answer: it has become required |
| StrictTwice.StrictIdempotent | src/dispatch.py:422-450 | compiling a compiled schema changes nothing, for any JSON value |
| StrictTwice.UnnullIdempotent | src/dispatch.py:453-463 | decoding a decoded value changes nothing |
| StrictTwice.PropertyNamesSurvive | src/dispatch.py:428-430 | the properties of a compiled object are those of the original, including one named like a dropped keyword |
| StrictSchema.CloseInPlace | src/dispatch.py:431-450 | the in-place end of the compiler: merged alternatives, nullable optional properties, every name required once, no others allowed |
| StrictSchema.NullProps | src/dispatch.py:436-446 | the loop over the properties makes exactly the optional object schemas nullable |
| StrictSound.NullableStrips | src/dispatch.py:436-446 | a value other than null that a nullable property schema accepts was accepted before |
| Attempts.MarkerGroups | src/attempts.py:67-107 | the four joining passes, filling groups in place, compute the specified join of markers, receipts and spawns |
| Attempts.History | src/attempts.py:110-222 | the whole classification, loop by loop, computes the specified answer; a bad role or subject is refused |
| Attempts.ClassifyGroup | src/attempts.py:171-195 | one group is a failure, live, or neither, by the branch order of the code |
| AttemptsBudget.JoinFiled | src/attempts.py:73-107 | after the join every event of an attempt is in exactly the group of its spawn or receipt, keys are distinct and no group is empty |
| AttemptsBudget.CountedOrRefused | src/attempts.py:171-195 | when nothing is consumed or live, a group not older than the trigger is a failure exactly when it was not refused only |
| AttemptsBudget.EveryAttemptCounted | src/attempts.py:129-203 | whenever the answer is neither consumed nor live, each group is counted or refused only, and the failure count is the stray dispatch failures plus one for each counted group |
| AttemptsBudget.LaunchesDistinct | src/attempts.py:110-222 | launches that ask first are attempts of their own |
| AttemptsBudget.LaunchedHasGroup | src/attempts.py:67-107 | no launched attempt is lost by the join: it has a group, or one begun before the trigger |
| AttemptsBudget.LaunchBudget | src/attempts.py:198-203 | in every run in which each launch asked first, fewer than MAX_ATTEMPTS launches count against the budget at the time of any launch, whatever else is appended in between |
| AttemptsRun.RefusedExactly | src/attempts.py:171-195 | a launch whose group did not begin before the trigger is refused only if and only if the ledger has a failure under its spawn, and nothing that takes it back: no other failure or end under it, no report of its death since the trigger |
| AttemptsRun.RevivedExactly | src/attempts.py:171-195 | a launch that did not count at the last launch counts at the end, its group begun before the trigger at neither time, if and only if it had been turned away with nothing to take it back, and something has since |
| AttemptsRun.RunBudget | src/attempts.py:171-203 | at any time in a whole run in which each launch asked first, at most MAX_ATTEMPTS launches count, beside those turned away by the last launch and taken back since, and those whose group began before the trigger at the last launch only |
| AttemptsRun.StaysOlder | src/attempts.py:118-131 | a launched spawn's group that began before the trigger stays one, if the ledger has no dispatch marker of the role from before the trigger |
| AttemptsRun.RunWithinBudget | src/attempts.py:171-203 | so with no launch taken back after the last one, and no dispatch marker of the role older than the trigger, a whole run has at most MAX_ATTEMPTS that count |
| AttemptsRevived.RefusalsTakenBack | src/attempts.py:171-195 | why the launches taken back must be added: for any n, a run of n launches that each asked first and were refused, all of which count in the end |
| AttemptsJoin.JoinsItsChild | src/attempts.py:85-90 | in the whole join, a marker under a pid that no other row uses is filed with a child that waited for that pid, when there is one |
| AttemptsJoin.JoinsItsOwn | src/attempts.py:85-90 | a marker under the id of a spawn the role has attempted is filed with that spawn, whatever fails next |
| AttemptsJoin.JoinsItsFailure | src/attempts.py:91-101 | with no such child, it is filed with the failure of the role that comes next, before any other dispatch or start, and a dispatch failure is filed there with it |
| AttemptsJoin.StaysAlone | src/attempts.py:102-104 | with neither, it is a group by itself whatever markers follow |
| AttemptsJoin.LedgerOrdered | src/attempts.py:123-127 | the rows of every ledger are in the order these laws ask for |
| AttemptsJoin.StrayExactly | src/attempts.py:157-165 | a dispatch failure is counted by itself exactly when no group of the join holds it and none is filed under its spawn |
| AttemptsReading.RefusalExactly | src/attempts.py:54-64 | a failed spawn is a refusal exactly when its reason, or else its `why`, is one of the eight that turn an attempt away, a grader's finding the lock taken only when another dispatch holds it |
| AttemptsReading.RoleExactly | src/attempts.py:42-51 | an event is of the role it names, else of the one its spawn id names, else a build's start of the builder |
| AttemptsRetry.RetryExactly | src/attempts.py:196-203 | a launcher that asks and waits may start exactly when nothing is consumed or live and there is no counted failure, or one that is five minutes old, or two that are both fifteen minutes old |
| AttemptsRetry.AnswerIs | src/attempts.py:197-222 | the answer, once consumed or live, says nothing else; otherwise it is exhausted from three counted failures on, gives a time for one or two, and tells whether a bundle is awaited |
| AttemptsRetry.FailureRests | src/attempts.py:196-203 | over whole runs, such a launcher starts nothing within five minutes of the first failure in earnest of an attempt it launched |
| AttemptsRetry.TwoFailuresRest | src/attempts.py:196-203 | nor within fifteen minutes of either when two have failed |
| AttemptsRetry.LaunchesAlone | src/attempts.py:166-187 | over whole runs, when an attempt is launched every one launched before has failed, been refused, ended, or been declared dead |
| AttemptsRetry.ConsumedExactly | src/attempts.py:132-139 | the trigger is consumed exactly when, since it, the subject has left or a spawn whose group is not older has produced what its role produces |
| AttemptsRetry.NoLaunchAnswered | src/attempts.py:132-139 | over whole runs, no launch follows that |
| AttemptsFate.AnsweredIsNoFailure | src/attempts.py:178-189 | a spawn that has produced what its role produces, with nothing worse than refusals and no word of its death, is neither a failure nor live |
| AttemptsFate.MarkerExpires | src/attempts.py:188-195 | a dispatch marker that nothing follows is live for ninety, fifteen or thirty minutes by its role, to the second, and a failure of that instant from then on |
| AttemptsFate.StaleCounts | src/attempts.py:76-77 | word that a spawn went stale is a failed attempt even when nothing else is known of the spawn, unless its group began before the trigger |
| AttemptsFate.DeathDated | src/attempts.py:141-183 | a spawn declared dead, with nothing worse than refusals, is a failure of the time of the first word that it went stale, or else of its first start, or else of its first row |
| AttemptsFate.AwaitsExactly | src/attempts.py:204-220 | a bundle is awaited exactly when a refusal for want of one has had no bundle, no word of its failure and no start of the role after it, and the newest build has no bundle already |
| AttemptsFate.BundledExactly | src/attempts.py:211-218 | that build has one exactly when its commit is given by seven digits or more and a later bundle names the same commit, either id abbreviating the other; when no two builds are of one instant |
| AttemptsOrder.OthersIrrelevant | src/attempts.py:123-127 | adding or removing other subjects' events anywhere never changes the answer |
| AttemptsOrder.PermutationIrrelevant | src/attempts.py:110-131 | with distinct times any permutation of the input gives the same answer, up to the order of reasons at one instant |
| AttemptsRelabel.JoinRelabelled | src/attempts.py:67-107 | the join depends on positions in the input only through their order: relabelling rows relabels the groups |
| AttemptsRelabel.ClassifyRelabelled | src/attempts.py:129-222 | the classification does not depend on positions, up to the order of reasons at one instant |
| Since.SpecWave | src/dispatch.py:225-240 | the loop over the plan's units returns the first exact footprint, else the wave of the first best overlap of one half or more |
| Since.WaveOfSpec | src/dispatch.py:225-240 | that loop's value is the declarative choice of a unit |
| Since.WaveBlocker | src/dispatch.py:243-275 | `wave_blocker` answers exactly when the spec is held, with the first blocking sibling in order of appearance |
| SinceWaves.HeldExactly | src/dispatch.py:243-275 | a spec of a given wave is held exactly when it has no build and no standing waiver of its own, and another spec of the charter, of a smaller wave by its own newest footprint, is unsettled |
| SinceWaves.NoMutualHold | src/dispatch.py:264-274 | with each its own wave, no two specs of a charter hold each other |
| SinceWaves.NoCycle | src/dispatch.py:264-274 | no chain of holds closes: waves rise strictly along it |
| SinceReplay.TestSibling | src/autodispatch.py:125-139 | the memoised test of one sibling gives what the unmemoised one does |
| SinceReplay.Replay | src/autodispatch.py:170-184 | the loop that re-tests only the sibling an event is about keeps the set of all blocking siblings, and ends with the last instant that set emptied |
| SinceReplay.SinceOf | src/autodispatch.py:142-186 | the later of the newest own marker and that instant |
| SinceReplay.MarkerIs | src/autodispatch.py:27-29 | a spec's own marker is the time of its newest writing, decision or unblocking |
| SinceReplay.ReplayRefinesScan | src/autodispatch.py:152-184 | replaying only the charter's members gives what scanning every prefix of the whole ledger gives |
| SinceExactly.SinceExact | src/autodispatch.py:142-186 | for every spec and ledger, the answer is that of re-running `wave_blocker` itself on every prefix if and only if: with a waiver standing, the sibling scan lets go at no event after the newest own marker; otherwise, of a spec built after that marker while the scan blocked it, the scan last lets go at that very instant, and of any other built spec, it lets go at no event since the build that is after the marker and after every earlier letting go |
| SinceExactly.WaiverMisdated | src/autodispatch.py:170-186 | a spec waived past a sibling that settles later: the two differ |
| SinceExactly.BuildMisdated | src/autodispatch.py:170-186 | a spec built before the sibling settles: the two differ |
| Reaper.Visit | src/disk_reaper.py:224-248 | the inventory succeeds exactly when every entry below is on the device, no mount and the user's, and then records exactly those entries |
| Reaper.Disk.Remove | src/disk_reaper.py:255-287 | a dry pass changes nothing and succeeds exactly when the names at and below the entry are those recorded, each with the device, inode, mode, owner, size and time of change of its contents recorded; a real pass succeeds exactly when, besides, every entry stands in a writable directory, although it changes the stamps it checks, and then nothing below is left; whatever the outcome only recorded entries below are deleted and outside only the parent's stamps change |
| Reaper.Disk.Drop | src/disk_reaper.py:281-284 | unlink and rmdir: one entry goes, the parent's stamps and the change time of other names of the inode move, nothing else |
| Reaper.Disk.ReapEntry | src/disk_reaper.py:336-347 | check, then remove: with others changing the disk in between, the entry is removed exactly when at the inventory every entry was on the device, no mount and the user's, none of the six recorded fields of any entry and no name differs now, and every directory involved may be written; if anything differs nothing is deleted |
| Reaper.MatchUp | src/disk_reaper.py:263-279 | the local checks of the walk, node by node, add up to the whole subtree being the recorded one |
| Reaper.CleanButNotRemovable | src/disk_reaper.py:345-347 | a tree on which the dry pass is clean and the real one cannot succeed |
| Backup.MaintainRun.Chunk | src/backup.py:534-542 | the loop takes the longest legal prefix and returns its size |
| Backup.LongestUnique | src/backup.py:534-542 | where the loop stops is the only legal prefix that one more object would make illegal |
| Backup.LegalIs | src/backup.py:534-542 | a chunk is one object, or several within the bound on objects whose sizes add up to within the bound on bytes |
| Backup.MaintainRun.CountChunksLeft | src/backup.py:550-558 | counting in one scan gives the number of times the chunker must be applied to empty the list |
| Backup.SuffixNeedsNoMore | src/backup.py:534-558 | a shorter list never needs more chunks |
| Backup.GreedyIsOptimal | src/backup.py:534-558 | no division of the list into contiguous legal chunks has fewer |
| Backup.AdaptPositive | src/backup.py:649-654 | a pass leaves both bounds positive except exactly when one object is halved under a floor below one |
| Backup.AdaptIs | src/backup.py:649-654 | a pass halves a bound down to its floor, sixty-four mebibytes for bytes, or doubles it up to its default |
| Backup.HalvingsReach | src/backup.py:649-651 | after any number of halvings a bound above its floor is that part of it, or the floor |
| Backup.BoundReachesZero | src/backup.py:649-651 | one object halved under a floor of zero |
| Backup.BoundsStayPositive | src/backup.py:411-437 | with a floor of one or more the saved bounds stay positive through any sequence of passes |
| Backup.CleanPassesDouble | src/backup.py:652-654 | after k clean passes each bound is its default or 2^k times what it was |
| Backup.DefaultsReturn | src/backup.py:652-654 | k clean passes restore the defaults exactly when 2^k covers both shortfalls |
| Backup.PassConserves | src/backup.py:583-623 | however a pass goes, the chunks packed followed by what is left are the work list, every chunk is legal, and the chunks done and those still to do are together as few as they can be |
| Backup.FailedChunkLeavesNothing | src/backup.py:605-620 | the pack directory afterwards holds what it held and the files of the chunks that were done, nothing of a failed one |
| Backup.OrderedPermutes | src/backup.py:583-590 | the work list is a permutation of the listing |
| Backup.CommitsLast | src/backup.py:589-590 | no commit comes before another object |
| Backup.MaintainRun.PackLoop | src/backup.py:592-623 | the loop over fields computes the specified outcome of a pass |
| Backup.MaintainRun.Finish | src/backup.py:645-655 | the end of a pass counts under the old bounds, then adapts them |
| Tail.TailAdd | src/cron_run.py:269-274 | adding text keeps the longest suffix within both the character and the line bound |
| Tail.ChunkingIrrelevant | src/cron_run.py:269-274 | two ways of cutting one text into pieces leave the same tail |
| Tail.Feed | src/cron_run.py:269-274 | the loop over pieces, each added in turn, ends with the tail of the whole text |
| Tail.LongestIs | src/cron_run.py:45-46 | the specified tail is within both bounds and every longer suffix is not |
| Tail.FitsIs | src/cron_run.py:45-46 | the bounds are two thousand characters and twenty lines |
| CronKill.OrderlySignals | src/cron_run.py:276-326 | over every run: TERM first and once, KILL at most once and only a full grace after the sequence began, no contact after a gone or refused answer, recorded signals are those delivered |
| CronKill.NoSurvivorAfterTermOnly | src/cron_run.py:302-320 | a run that stops after TERM alone stops because the group was found gone |
| CronKill.LeftAlone | src/cron_run.py:294-301 | a run that meets neither its deadline nor a signal contacts nobody and ends when the command is reaped and the pipe closed |
| CronKill.EndsInTime | src/cron_run.py:302-330 | polled when the sequence begins, by its deadline or by the wrapper's own signal, a grace later and a grace after that, a run has ended unless a call was refused |
| CronGrace.EndsAfterLastSignal | src/cron_run.py:15-18 | a run polled a full grace after the last signal that reached the group is over, unless a call was refused |
| CronGrace.KillTooSoonExactly | src/cron_run.py:27-31 | SIGKILL follows SIGTERM by less than a grace if and only if SIGTERM was sent for the deadline by a poll after it, the first poll a grace past the deadline comes less than a grace after that one, and SIGTERM, every probe between and SIGKILL are delivered |
| CronGrace.WrapperSignalWaits | src/cron_run.py:302-315 | a sequence begun by the wrapper's own signal leaves the group its full grace |
| CronGrace.KillAfterOneSecond | src/cron_run.py:300-315 | a deadline of 10 with a grace of 10, polled at 19 and 20: SIGKILL one second after SIGTERM |
| CronKill.ExitMeaning | src/cron_run.py:360-383 | the exit code read off the answers to the calls: the command's own, 128+n, 137 exactly for a delivered KILL, 124 only for a group then gone |
| CronEnds.EndsExactly | src/cron_run.py:294-345 | a loop that has run so far ends in the iteration it is in exactly when: it has called nobody or was refused, and the command is reaped and its pipe closed; the group is gone and was never reached; it is gone or had SIGKILL, and the command is reaped and its pipe closed; or a grace has passed since the last signal that reached it |
| CronEnds.WrapperIs | src/cron_run.py:302-306 | the wrapper's signal in the exit code is the one received when the sequence began |
| CronKill.TermAndKillTogether | src/cron_run.py:300-315 | the case of one poll: TERM and KILL leave in one iteration exactly when it comes a grace after the deadline, without a wrapper signal, and all three calls are delivered |
| CronKill.Poller.Reach | src/cron_run.py:276-291 | `contact`: no call once the group is gone; what each answer sets |
| CronKill.Poller.Iterate | src/cron_run.py:295-356 | one iteration of the loop, breaks included, is the specified step |
| CronKill.Poller.Poll | src/cron_run.py:293-357 | the loop is the fold of that step over what it meets |
| CronInterval.ParseField | src/crons.py:190-216 | a field is accepted exactly when every part is a number in range or a positive step, and the values are exactly those at which it fires, ascending |
| CronInterval.IntervalS | src/crons.py:219-239 | exactly the supported schedules are answered, with the least distance between any two firings of the endless schedule |
| CronInterval.AcceptedIs | src/crons.py:190-235 | lines read are those of steps of one or more and numbers up to 59 and 23, every day |
| CronInterval.StepsMean | src/crons.py:199-207 | a step in minutes and one in hours fire at the minutes and hours of the day that are their multiples |
| CronInterval.PartMeans | src/crons.py:199-214 | a step of fifteen fires at 0, 15, 30 and 45 of the hour, a number at itself, anything else never |
| CronInterval.Daily | src/crons.py:233-238 | the schedule fires at an instant exactly when the day's list holds its time of day |
| CronInterval.Between | src/crons.py:236-239 | any two firings, however many days apart, are at least the least neighbour gap apart, midnight included |
| Slugs.MakeSlug | scripts/problem_backfill.py:94-108 | the suffix search ends and finds the first free suffix |
| Slugs.SuffixesFill | scripts/problem_backfill.py:103-107 | the search goes at most one past the number of taken slugs |
| Slugs.NewSlugIs | scripts/problem_backfill.py:102-108 | a free base is the slug, and a taken one gets the least suffix from 2 on that is free |
| Slugs.NewSlugMatches | scripts/problem_backfill.py:94-108 | a new slug fits the pattern exactly when base and suffix together are at most 60 characters |
| Slugs.PatternIs | scripts/problem_backfill.py:40 | the pattern is three to sixty small letters, digits and dashes, and perhaps one line break |
| Slugs.BaseIs | scripts/problem_backfill.py:94-101 | a base is the first five words joined by dashes, cut at sixty letters, without the dashes that then end it, or the lesson's place when fewer than three letters are left |
| Slugs.NewSlugBound | scripts/problem_backfill.py:94-108 | before any search: a base short enough for the number of slugs taken always gives one that fits, a taken base of 59 characters or more never does |
| Slugs.SuffixOverflows | scripts/problem_backfill.py:98-107 | a long statement whose base is taken gets a slug outside the pattern |
| Backfill.BuildGroups | scripts/problem_backfill.py:111-169 | the loop over lessons, with its group objects and two dictionaries, builds the specified grouping |
| Backfill.FindBest | scripts/problem_backfill.py:150-159 | the inner loop keeps the first best overlap |
| Backfill.BestIs | scripts/problem_backfill.py:152-158 | that is the earliest group of maximal overlap |
| Overlap.ShareIs | scripts/problem_backfill.py:80-85 | an overlap of so much means that neither side is empty and the common elements are that part of all |
| Overlap.MoreIs | scripts/problem_backfill.py:80-85 | one overlap is the greater when, of three sets none empty, its common part of all is |
| Backfill.EachLessonOnce | scripts/problem_backfill.py:111-169 | every lesson is a member of the groups exactly once and nothing else is |
| Backfill.FoundsAs | scripts/problem_backfill.py:122-167 | a lesson that founds a group gives it its words, its fix if it has one, and its own slug or one made from the words, the slugs so far and the number of the group |
| Backfill.GroupsStay | scripts/problem_backfill.py:111-169 | later lessons never move, rename, refound or empty a group |
| Backfill.NamesDistinct | scripts/problem_backfill.py:116-169 | no two groups share a slug or a founding fix |
| Backfill.Keyed | scripts/problem_backfill.py:122-148 | a lesson whose slug fits the pattern is in the group of that slug, and one without such a slug whose fix is given and not `open` in the group founded for that fix |
| Backfill.SameKeySameGroup | scripts/problem_backfill.py:124-148 | two lessons whose slug fits the pattern and is the same, or that have none and name the same fix other than `open`, end up members of one group |
| Backfill.ClusteredWhere | scripts/problem_backfill.py:150-167 | a lesson with neither is in the earliest group of maximal overlap of 7/20 or more among those before it, and founds a group exactly when there is none |
| InfraGate.RetryEventsAre | src/dispatch.py:112-123 | the rows are the admitted failures since the last success |
| InfraGate.MachineHoldIs | src/dispatch.py:152-163 | a hold stands exactly when something held and nothing lifted it since |
| InfraGate.BoundedRetries | src/dispatch.py:110-163 | in every sequential run at most four failures stand since the last success, spaced by the ladder, and at most five attempts fail on the machine between lifts |
| InfraGate.AttemptsWait | src/dispatch.py:125-150 | in every sequential run an attempt let through, successful or not, comes at least the m-th delay after the m-th standing failure, for every m |
| InfraLaws.GateIgnores | src/dispatch.py:112-163 | any event but a decision or an unblock on the subject, and the role's own success, admitted machine failure, and escalation of an unknown failure or an exhausted ladder, is without effect on the gate wherever it stands in the ledger |
| InfraLaws.StopHolds | src/dispatch.py:152-163 | an unknown failure or an exhausted ladder holds through any events until a decision, an unblock or a success of the role |
| InfraLaws.NoAttemptWhileUnknown | src/dispatch.py:1194-1213 | over runs, no attempt is let through after one that failed for an unknown reason before something frees the role |
| InfraLaws.WaitsExactly | src/dispatch.py:110-150 | with no hold an attempt is let through exactly when no failure stands, or the last of at most four is 5, 15, 45 or 120 minutes old by its place |
| InfraLaws.AttemptLeaves | src/dispatch.py:1185-1216 | what each outcome of an attempt leaves at the gate: a success frees, a failure of the work changes nothing, an unknown one holds, a machine failure counts from its end and a fifth holds |
| InfraGate.FifthFailureHolds | src/dispatch.py:1194-1206 | a fifth failure adds no row and holds through any events until a decision, an unblock or a success |
| InfraGate.DecisionReleases | src/dispatch.py:138-163 | a decision lets the role through in time if and only if the ladder can still be read |
| InfraGate.UnreadableStaysHeld | src/dispatch.py:125-150 | one failure with an unreadable time, after which no decision ever lets the role through |
| InfraGate.HoldsEnd | src/dispatch.py:138-163 | in sequential runs it always does |
| InfraGate.AskGate | src/dispatch.py:138-150 | the gate, by its loops |
| InfraGate.Dispatcher.MachineFailure | src/dispatch.py:1185-1216 | what a failed attempt appends |
| InfraGate.Dispatcher.Dispatch | src/dispatch.py:1273-1290 | gate first, then the attempt: one step of a run |
| CiShadow.Candidates | src/ci_shadow.py:161-200 | the commits not in the ledger and without a state file of their name, once each |
| CiShadow.Day | src/ci_shadow.py:64-77 | a clean day not passed before is found exactly when there is one, and then the latest |
| CiShadow.CleanDayIs | src/ci_shadow.py:64-77 | a day is clean exactly when no pass ends there and its twenty-four hours hold at least five comparisons, every one identical |
| CiRunner.Runner.Record | src/ci_shadow.py:257-265 | a comparison already in the ledger is not written again |
| CiRunner.Runner.Collect | src/ci_shadow.py:359-386 | records with the verdict of each side, then the branch's deletion, then the state file's: cut short, the file is there and the branch unless all records are, and it completes exactly when it survives the effects still to make, so a retry goes on where the crash was |
| CiRunner.Runner.CollectAll | src/ci_shadow.py:405-416 | unless a crash ends it, each young state file has all its workflows started, each finished one is gone with its branch and its verdicts recorded, and the rest is as it was |
| CiRunner.Runner.StartAll | src/ci_shadow.py:417-423 | the commits a pass starts are exactly those that still found a free place, in order, the state files bear their names as OverwrittenExactly reads them, and those turned away are recorded |
| CiRunner.Runner.Start | src/ci_shadow.py:272-288 | state file, then branch, then workflows: once it completes the branch is there and the file notes every workflow as started; a commit without a runner is recorded and nothing else |
| CiRunner.Runner.Dispatch | src/ci_shadow.py:291-302 | the state file notes exactly as many more workflows as the dispatch survives, all of them exactly when it completes, and every invariant stays |
| CiRunner.Runner.Pass | src/ci_shadow.py:389-429 | one pass, crashing between any two effects, keeps every invariant, and starts only commits found, with nothing against running them, of which the ledger has no comparison; unless a crash ends it, it goes all its way |
| CiPass.FinishedGone | src/ci_shadow.py:359-386 | a pass that goes all its way has dealt with every finished shadow run: all its records are in the ledger, and neither its branch nor its state file is left |
| CiPass.OthersWait | src/ci_shadow.py:405-416 | every other state file is as it was, with all workflows started if it is young |
| CiPass.NoRunWaits | src/ci_shadow.py:417-423 | a pass that goes all its way and leaves a place free has left no hosted run lying that is neither in the ledger nor under a state file of its name |
| CiPass.NothingElse | src/ci_shadow.py:257-386 | a comparison gets into the ledger with the verdict of a finished run, or without one because the run could not be shadowed |
| CiRunner.Runner.Passes | src/ci_shadow.py:389-429 | any sequence of crashing passes: one record for each commit and kind, at most three state files, no two passes of a kind for one instant, no workflow noted as started without its branch unless the records are there, and, names apart, each started commit has its state file or all its records and no branch is without its state file |
| CiShadow.FinishedIs | src/ci_shadow.py:257-265 | a commit has all its records exactly when the ledger has its comparison, and its Postgres one if it has that side |
| CiShadow.OverwrittenExactly | src/ci_shadow.py:223-226 | the commits started in a pass all keep their state files exactly when no two of those that fit share twelve digits |
| CiShadow.TwinsLoseOne | src/ci_shadow.py:223-226 | two commits sharing twelve digits, started by one pass: one loses its file |
| BranchSafety.DailyLimit | src/branch_refresh.py:231-235 | under every interleaving, crashes and re-entry through the gate included, attempts labelled with a day never exceed the limit, nor do forward movements |
| BranchSafety.NoLostUpdate | src/branch_refresh.py:368-383 | everyone's movements of the branch form one chain; a process moves it forward once at most, from the tip that was there when it read it and main under the lock, to the commit it built, both tip and main found again when it checked, by a recut twice; and back once at most, over that movement of its own, under the lock, after the gate has failed it |
| BranchSafety.ReplacedTipsTagged | src/branch_refresh.py:497-515 | a tip a recut has replaced by its own commit has a tag, for good |
| BranchSafety.PassedStays | src/branch_refresh.py:517-553 | a process whose gate has passed never moves the branch back, so that unless somebody else moves it the branch stays at its commit |
| BranchSafety.RolledBackNamed | src/branch_refresh.py:497-533 | in every run, the recut's own commit that a failed gate takes back has a tag if and only if it had one from the first, somebody other than that recut named it during the run, or it is the very tip replaced |
| BranchHistory.TagsAccounted | src/branch_refresh.py:497-515 | a commit has a tag exactly when it had one or a step of the run gave it one: anybody's, or a recut's to the tip it read |
| BranchHistory.RunAccounted | src/branch_refresh.py:360-383 | whatever a process owes by where it is and what it has moved has happened in the run: its reading, its build, its checks, the answer of its gate, its settling |
| BranchSafety.OneAtATime | src/branch_refresh.py:176-181 | no two processes are under the lock, through release and retaking |
| BranchAlone.RefreshGetsThere | src/branch_refresh.py:280-399 | from any world, an undisturbed refresh under the limit leaves the branch at its commit, on one recorded attempt, and changes nothing else |
| BranchAlone.RecutGetsThere | src/branch_refresh.py:402-553 | and an undisturbed recut tags the old tip and leaves the branch at its commit when the gate passed, and where it was when the gate failed |
| BranchAlone.RolledBackTipUntagged | src/branch_refresh.py:525-533 | a run in which a failed gate replaces the recut's own commit, which nothing names |
| BranchMoves.NextKeeps | src/branch_refresh.py:280-553 | every step of every process, and of everyone else, keeps the invariant of the shared state |
| Artifacts.Content.Snapshots | src/branch_refresh.py:243-257 | pre-images of the files that exist; a link or undecodable bytes stop it |
| Artifacts.Content.WriteAll | src/branch_refresh.py:258-261 | each file must still be its pre-image; where the loop stops and what it has left |
| Artifacts.Content.Pin | src/branch_refresh.py:238-265 | whatever others do to any file between the loops, success replaces every file; failure gives every file its own bytes back and leaves what others changed, a torn write apart; undisturbed, all files are as they were exactly when no write was torn |
| Artifacts.TornWrite | src/branch_refresh.py:261-265 | a write that stops half-way is torn |
| Artifacts.Content.Restore | src/branch_refresh.py:268-277 | exactly what is as it was pinned goes back |
| Artifacts.PinRestoreRoundTrip | src/branch_refresh.py:238-277 | pinning and taking back, undisturbed, is the identity |
| Balance.ChooseSettles | src/balance.py:53-68 | on unchanging readings the state changes at most once |
| BalanceTargets.ChooseBands | src/balance.py:53-68 | exactly when each state is chosen, in figures, readings missing included |
| BalanceTargets.BandsHold | src/balance.py:53-68 | readings that stay between the bands, in any number, leave every state |
| Balance.EditTwice | src/balance.py:135-185 | editing an edited document changes nothing |
| BalanceMeaning.ReadBack | src/balance.py:135-185 | read back, each managed role has exactly its target's keys and values and every other table what it had |
| BalanceTargets.RolesMoved | src/balance.py:20-40 | read back, each of the six roles has in each state exactly the backend, model, effort and fallback of the table, written out: Claude pressed leaves only the charter reviewer on a seat, codex pressed leaves nobody on codex |
| BalanceTargets.OthersStay | src/balance.py:135-185 | no other table reads differently |
| BalanceTargets.JudgesSafe | src/balance.py:100-106 | a document is refused exactly when one of the four judges that are not moved would run on codex, by its own table or by default; otherwise no judge's table is on codex afterwards |
| BalanceMeaning.JudgesKept | src/balance.py:100-106 | a document that is not refused is never rewritten with a judging role on codex |
| BalanceMeaning.LoadsKept | src/balance.py:184-185 | a document with no key or table twice is rewritten into one |
| BalanceKept.Kept | src/balance.py:157-183 | every unmanaged line and every comment on a managed key is kept verbatim in order; only headers with a blank line are added |
| BalanceRewrite.Rewrite | src/balance.py:135-185 | refuses exactly documents that do not load or set an unmanaged judge on codex; otherwise the line loop yields the edited document and the two final checks never fail on documents of the line datatype |
| BalanceRewrite.EditLines | src/balance.py:157-175 | the loop over lines, with its flags, is the edit of the parsed document |
| BalanceRewrite.RewriteTwice | src/balance.py:135-185 | what was written is accepted again and returned unchanged |
| TomlDoc.FlatParse | src/balance.py:157-175 | the lines of a parsed document are its lines |
| TomlDoc.ParseFlat | src/balance.py:157-175 | parsing the lines of a document gives it back |
| TomlComment.FindComment | src/balance.py:108-126 | the character loop finds the first `#` outside quotes, blanks before it included |
| TomlComment.CommentSurvives | src/balance.py:108-132 | a rewritten key line, whatever its value, has the comment of the line it replaces |
| TomlQuotes.CommentAfter | src/balance.py:109-126 | however a line is quoted, in double quotes with escapes or in single quotes without, its comment is the blanks before the first `#` outside its quotes and what follows up to the line break |
| TomlQuotes.NoComment | src/balance.py:109-126 | a line whose every `#` is quoted has none |
| BaseRed.KnownState | src/base_red.py:444-476 | the loops compute exactly the known checks, each with the newest row that shows it |
| BaseRedLaws.KnownExactly | src/base_red.py:444-476 | a check is known exactly when some row shows it after which none settled its kind: a complete night settles every kind, a complete and well-formed full run of master pytest and parity alone, and an incomplete rerun shows what it names; times apart |
| BaseRedLaws.FullRunSpares | src/base_red.py:452-466 | a full run of master never takes away a vitest or suite check, nor does one that is not well formed take any |
| BaseRed.ForgottenExactly | src/base_red.py:444-476 | a check stops being known exactly when an appended complete row covers its kind as the newest, does not name it, and nothing since does |
| BaseRed.IncompleteKeeps | src/base_red.py:444-476 | an incomplete row never takes a check away |
| BaseRed.SnapshotPlaced | src/base_red.py:449-466 | a row becomes the snapshot of a kind exactly when it covers it and no covering row is newer, whatever the order of filing |

## Left out

- StrictSound.Sound: constraints of the keywords the compiler drops are not part of validity here, so the claim is exact for schemas without one; `$ref`, `oneOf` and `anyOf` over objects are outside the fragment because the decoder does not descend into them, and a closed object's required names must be declared (StrictSound.SoundExactly does without).
- StrictSchema.CloseInPlace: promises which names `required` lists, each once, not their order.
- Attempts.History: event times are integers and reasons, spawn ids and roles are datatypes; parsing them, and the errors for malformed timestamps, are not modelled.
- AttemptsBudget.LaunchBudget: counts at the time of each launch; a group begun before the trigger and one so far only refused do not count then. AttemptsRun.RunBudget is about the end of a run.
- SinceExactly.SinceExact: the memo kept across calls for other specs is not modelled. `fold.spec_state` is a function of the sibling's events.
- Since.SpecWave: overlaps are exact fractions where the source divides in floating point; parsing plans is not modelled.
- Reaper.Visit: the inventory and each removal pass happen with nobody else writing; what others do between the inventory and the dry pass is modelled. Process references, ages and the pass budget are not.
- Reaper.Disk.Remove: a directory's size after a deletion is one arbitrary choice, and the only refusal of the system is an unwritable parent.
- Backup.PassConserves: git, the clock, memory and free space are answers of the surroundings; locks, the listing and `excluded` are not modelled.
- CronKill.Poller.Poll: one reading of the wrapper's own signal in each iteration; the timeouts of `select`, row writing and the error when the command cannot be started are not modelled.
- CronInterval.ParseField: a field is already split into parts, and numbers are read; daylight saving is not modelled.
- Backfill.BuildGroups: statements are their normalised words; overlaps are exact fractions.
- InfraGate.BoundedRetries: what `fold.admits` answers is a flag of the event; one dispatcher at a time for a subject and role, which only dispatches when the gate says run; the change of backend after a failure is not modelled.
- CiRunner.Runner.Passes: passes exclude each other by their lock; GitHub's answers, the comparison of logs and the workflow started twice by a crash between starting it and noting it are not modelled. Git takes the deletion of a full branch name that is already gone, so a collection may repeat it; a remote that refused would stop every later pass there.
- BranchSafety.NoLostUpdate: for branches no worktree holds; the `reset --hard` of a held branch is not a compare-and-swap and is left out. The limit is the same throughout a run, and nobody deletes tags.
- BranchSafety.DailyLimit: rebasing, checks, worktrees, receipts and rework events are left out; a step's other preconditions are one answer.
- BranchMoves.NextKeeps: processes are values and their steps functions on one shared state holding the lock, the branch, the tags and the rows, because the claims are about interleavings.
- Artifacts.Content.Pin: the rewriting of tokens is a function of the bytes; restoring itself does not fail.
- BalanceRewrite.Rewrite: documents are lines with one header for a table, no managed sub-table and no multi-line value; quoted or dotted managed keys, quoted table names, and an inline table or an array of tables for a managed role (on which the final load would raise) are outside the line datatype, so the two final checks are said to pass only of the documents within it; loading is the absence of repeated keys and tables.
- BaseRed.KnownState: rows are read and validated already; which commit and source a check is known from is the row itself.
- `compare`, `classify_selected`, `interval_s`'s callers and the seat-slot loop of `candidates` only add members that follow from reading one body.
- `fold`, `nextstep`, `spawns` and `merge_gate` appear only as parameters.
- Processes, git, GitHub, Telegram, tmux and model backends appear only as the answers the protocols branch on.
- Reports, boards, briefs and token accounting.

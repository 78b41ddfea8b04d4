# Formal model of the private production upgrade

This project models the in-place upgrade of the private production runtime and the pieces it leans
on, and proves what they promise. It is plain Dafny: `dafny verify dfyconfig.toml` checks all of it.

## What is modelled

**The upgrade** (`UpgradeState`, `UpgradeEffects`, `UpgradeRules`, `UpgradeTool`, `UpgradeSession`,
`UpgradeTheorems`, `UpgradeGaps`, `UpgradeRuns`). The durable objects of the host are one value,
`World`: journals, plans, notice snapshots, the ACTIVE pointer, the gate volume, the recovery journal, the roles that may
log in, running and created containers, Flyway history, identity digests, the migration actor and the
captured pairs. `Perform` says what one atomic effect changes. The tool is the class `Upgrade`, one
method a step; every effect goes through `Do`, where an arbitrary schedule decides whether the call
succeeds, is refused, loses its acknowledgement, is cancelled or is the last thing before a SIGKILL,
and what users, the container engine and an orphaned migration actor do before the next one.
`past` collects every state. `Inv` is what holds at each instant, `Step` what two neighbouring
instants must obey, `Lawful` a whole run. `Session` is the main safety theorem; the lemmas of
`UpgradeTheorems` read from it what operators are promised. Apply, forward fix, resume, abandon,
backup, thaw and the release of an identity fence also say from which states they succeed
undisturbed, so that none of them could keep its promises by refusing; `UpgradeRuns` reaches such
states from an installed runtime, in plain terms, and says by name what serves at the end.

**Migrations**: the split of an applied history (`Flyway`), the numbers behind the versions
(`FlywayVersions`) and the checksum of a file (`FlywayChecksum`, with CRC-32 as in section 8 of
RFC 1952 and UTF-8 as in section 3 of RFC 3629). **Configurations**: `Reconcile`. **First
installation**: the lease between controller and helper (`Lease`, and what it achieves in
`LeaseProgress`), the process a service runs (`ProcessArguments`) and the containment of a failed
attempt (`Containment`). **Companions**: `NoticeAlign`, `Deployment`, `RuntimeEnv`, `RepairSweep`.
`Common` and `Calls` hold shapes the modules share.

## What was found

`Session` gives its guarantees up on two orders (`Reckless`), and the ownership of the identity fence
on a third (`Freeing`), each recognisable before it is given. For each there is a run of the program's
own steps that breaks a promise, from every state in which it would go through, and such a state is
reached from an installed runtime.

1. *Two unfinished upgrades.* A forward fix killed between writing its journal and superseding its
   predecessor leaves both unfinished on one pair (`ReachRivals`). A resume of either, unless they were
   reopened before, may serve users and, after a failure, fence again under the shared pair's name:
   `fence_continuous` then answers yes for the other although users wrote (`RivalResumeFoolsTheFence`).
   Abandoning the failed target is safe while it is still possible (`ReachIdleRivals`), but once the pair
   is thawed the fix can be neither resumed nor abandoned, and blocks every later claim
   (`AbandonAndThawOrphanTheFix`);
   when it is not possible, no order that is not refused is safe (`RivalsAreADeadEnd`).
2. *An interrupted thaw.* `thaw` opens the gate before it removes its journal. Killed in between
   (`ReachStaleLine`), with an unfinished upgrade on the pair it names, a capture that is killed between
   closing the gate and announcing itself leaves a closed gate over that line, and `fence_continuous`
   believes it (`StaleCaptureFoolsTheFence`). A thaw killed anywhere is harmless otherwise.
3. *A released identity fence.* The maintenance adapter releases any run identifier that it is given,
   an upgrade's own included. Where identity was touched (`ReachHalfDone`), a capture and its thaw then
   let users in, and the upgrade can be neither resumed nor abandoned (`FreedFenceIsServed`). Nothing
   else is lost: all other guarantees are proved over runs with such releases too.
4. *Signals outside the guarded region.* The lease helper fences on whatever strikes its guarded
   region. A signal in the few statements between claim and region, or a second one inside the fence,
   leaves less (`SignalInTheGap`, `SignalInTheFence`), and a gate opening in flight undoes a fence
   (`LateOpening`); nothing else does, and on a helper that was not released these always do
   (`Lease.ExitIsFenced`).
5. *The end of the calendar.* `windows` adds the window length before taking the minimum, so ranges
   that the option check accepts can still overflow (`AcceptedCanOverflow`; `LeavesTheCalendar` says
   which).

## Model

| member | source | states |
|---|---|---|
| UpgradeSession.Session | scripts/private_production_upgrade.py:853-1274 | From any installed runtime, for every sequence of orders (apply, forward fix, resume, abandon, backup, thaw, entering and leaving identity maintenance, waiting) and every schedule of failures, lost acknowledgements, cancellations and kills after any effect: each order is given at a moment of one run that starts there; unless some order was reckless at its moment every state keeps the invariant and every two neighbours obey the protocol rules; unless one also took the identity fence from an upgrade that had touched identity, no such upgrade ever loses it; and where nothing is scheduled to fail every order accomplishes what it is for, wherever it can. |
| UpgradeSession.Run | scripts/private_production_upgrade.py:1224-1274 | One order keeps the run lawful, given up exactly on resuming, over a continuous fence, one of two unfinished upgrades that were not reopened, and on a capture while the gate is open over the line of a pair that an unfinished upgrade counts on; it keeps the run strict, given up exactly on releasing the identity fence while an upgrade has touched identity; and with nothing going wrong it accomplishes what it is for. |
| UpgradeTheorems.RunIsLawful | scripts/private_production_upgrade.py:1010-1031 | A lawful run is lawful at every index, not only at its end. |
| UpgradeTheorems.FenceIsSafe | scripts/private_production_upgrade.py:1010-1058 | In every state of a run, an unfinished upgrade that holds the identity fence and was never reopened has the gate closed, the application down and no product write since its pair; the migrator can log in only in the migration phase behind its durable mark, Keycloak only from the identity phase to the reopening, and nobody else at all. |
| UpgradeTheorems.UnsealedIsUntouched | scripts/private_production_upgrade.py:884-893 | Unless an order took a touched upgrade's fence away: an unfinished, never reopened upgrade outside the identity fence, as between its claim and maintenance-enter, has not touched identity and had no Keycloak started. |
| UpgradeTheorems.FenceIsOwned | scripts/private_production_upgrade.py:1080-1142 | In every state of such a run, whoever has touched identity and was not reopened owns the identity fence. |
| UpgradeTheorems.IdentityIsThePairs | scripts/private_production_upgrade.py:884-1079 | Until identity is touched or a product write happens, identity is what a first claim's pair captured, in every state of every lawful run. |
| UpgradeTheorems.OpeningIsSwitched | scripts/private_production_upgrade.py:1116-1142 | The gate opens only as the thaw of a backup's own fence outside identity maintenance, or with ACTIVE on the target, its reopening durable and no superseded container of a changed service left. |
| UpgradeTheorems.ContinuousFenceIsSound | scripts/private_production_upgrade.py:997-1008 | Whenever fence_continuous says yes for an unfinished claim that was not reopened, in any state of any run, interrupted thaws included, nothing was written since its pair and nothing can be. |
| UpgradeTheorems.SealedFenceIsContinuous | scripts/private_production_upgrade.py:997-1008 | The converse while the identity fence is held: there fence_continuous always says yes, so a sealed upgrade is never stranded by its own check. |
| UpgradeTheorems.OneUnfinishedLeads | scripts/private_production_upgrade.py:523-529 | In every state at most one unfinished journal is not named as predecessor by another unfinished one, a kill between claim and supersession included. |
| UpgradeTheorems.CommitIsForever | scripts/private_production_upgrade.py:1250-1265 | Once one migration beyond a pair is committed, no upgrade on that pair is ever abandonable again in the run. |
| UpgradeTheorems.KeycloakIsForever | scripts/private_production_upgrade.py:1080-1085 | A started target Keycloak had its durable mark first, and its upgrade is never abandonable again. |
| UpgradeTheorems.ActorIsMarked | scripts/private_production_upgrade.py:1037-1047 | A migration actor exists only for a claim whose mark is durable, orphans included. |
| UpgradeTheorems.HistoryOnlyGrows | scripts/private_production_upgrade.py:1041-1053 | Between any two states of a run the Flyway history is extended, never rewritten. |
| UpgradeTheorems.ReopeningConservesIdentity | scripts/private_production_upgrade.py:1080-1142 | If a claim is reopened anywhere later in a run, then at some moment in between live identity was the recorded baseline, and where the notice migrates every localization text was the kept one but for that approved notice; the claim itself is never replaced. |
| UpgradeTheorems.ReopeningIsExact | scripts/private_production_upgrade.py:1080-1142 | With the claim's own texts kept, or none yet, the identity a claim is reopened over equals the pair's own digests in every part, with exactly the one notice changed if it migrates. |
| UpgradeTheorems.SnapshotStays | scripts/private_production_upgrade.py:1089-1096 | The first texts kept for a target are never replaced, through any later resumes, fixes and orders. |
| UpgradeTheorems.BaselineStays | scripts/private_production_upgrade.py:1089-1096 | As long as a claim stands, texts kept for it are the ones it recorded before anything was written, if that was so at any earlier moment, as before any were kept. |
| UpgradeTheorems.CompletionAlignsOneNotice | scripts/private_production_upgrade.py:1089-1114 | However often it was interrupted, an upgrade that migrates the notice, and for which at some moment of its claim no other texts than the recorded ones were kept, completes over those texts with that notice alone approved. |
| UpgradeTheorems.ChainKeepsBaseline | scripts/private_production_upgrade.py:870-938 | Along any chain of forward fixes in a run, each claimed while the one before it stands, the run, the pair, the identity baseline and the first texts that were kept are the first claim's. |
| UpgradeTheorems.CompletionIsDetermined | scripts/private_production_upgrade.py:1182-1243 | However an upgrade came to its completion, the Flyway history is the inventory file by file, every row a success; and where no other texts than the recorded ones were kept, a migrated notice is the only text that differs from them. |
| UpgradeTheorems.CompletionsAgree | scripts/private_production_upgrade.py:1182-1243 | Two completions of one plan, on whatever hosts and by whatever ways, agree in every applied migration but its rank, in session policy, and, where both migrated the notice from equal recorded and kept texts, in every localization text. |
| UpgradeGaps.RivalResumeFoolsTheFence | scripts/private_production_upgrade.py:1224-1248 | From every state in which a resume of one of two unfinished upgrades is reckless, without a foreign maintenance owner, a history its plan contradicts or an unknown notice: an orphan's exit, the steps of that resume over a Keycloak that starts on the recorded identity, a user's write and a failing next call make fence_continuous answer yes for the other over newer product writes. |
| UpgradeGaps.ReachRivals | scripts/private_production_upgrade.py:870-893 | From an installed runtime, backup, apply and a forward fix killed between its claim and the supersession reach such a state by a lawful and strict run. |
| UpgradeGaps.StaleCaptureFoolsTheFence | deploy/public-production/bin/recovery:418-459 | From every state in which a capture is reckless, a user's write and a kill once the capture has closed the gate leave fence_continuous true over newer product writes. |
| UpgradeGaps.ReachStaleLine | deploy/public-production/bin/recovery:450-459 | From an installed runtime, a claim and a thaw killed before it removes its line reach such a state by a lawful and strict run. |
| UpgradeGaps.FreedFenceIsServed | deploy/public-production/bin/identity-maintenance:94-103 | From every state in which the fence of an upgrade that has touched identity can be released, the release, a capture and its thaw open the gate over a half-migrated identity, whose upgrade can be neither resumed nor abandoned. |
| UpgradeGaps.ReachHalfDone | scripts/private_production_upgrade.py:1080-1085 | From an installed runtime, an apply killed right after the mark of its identity phase reaches such a state by a lawful and strict run. |
| UpgradeGaps.RivalsAreADeadEnd | scripts/private_production_upgrade.py:853-888 | With two unfinished upgrades of which none can be abandoned, every order of the tool that is not refused is reckless. |
| UpgradeGaps.OrphanIsADeadEnd | scripts/private_production_upgrade.py:853-888 | A fix that is the only unfinished upgrade, has started nothing and has lost its fence leaves no order of the tool that is not refused. |
| UpgradeGaps.AbandonAndThawOrphanTheFix | scripts/private_production_upgrade.py:1250-1274 | Abandoning the failed target beside a fix that has started nothing, and thawing, is lawful and leads to that dead end. |
| UpgradeGaps.ReachIdleRivals | scripts/private_production_upgrade.py:1037-1058 | From an installed runtime, an apply that fails between its migration mark and the first commit, and a fix killed right after its claim, reach such a state by a lawful and strict run. |
| UpgradeRuns.FirstUpgrade | scripts/private_production_upgrade.py:853-893 | From every installed runtime, and every plan of at most 2000 files in strict version order that begin with the rows that are there: backup and apply leave the target open to its users, with every role and service, on exactly the plan's migrations, its session policy and the approved notice. |
| UpgradeRuns.ResumedUpgrade | scripts/private_production_upgrade.py:1224-1243 | So does an apply that failed once its migrations were committed, and its resume. |
| UpgradeRuns.OrphanedUpgrade | scripts/private_production_upgrade.py:1037-1058 | So does an apply that was killed while its migration actor ran: the orphan commits every pending file by itself and exits, and the resume goes on from there. |
| UpgradeRuns.FixedUpgrade | scripts/private_production_upgrade.py:870-938 | So does a forward fix of an apply that failed once identity was touched and the notice put: it carries the kept texts and the claim's baseline. |
| UpgradeRuns.ReopenedUpgrade | scripts/private_production_upgrade.py:1224-1243 | So does the resume of an apply that was killed once users had been let in and had written, with the gate still open. |
| UpgradeRuns.AbandonedUpgrade | scripts/private_production_upgrade.py:1250-1274 | An apply that failed before its actor committed anything can be given up, and the thaw of its pair opens the gate with every role able to log in. |
| UpgradeEffects.NatureIsLawful | scripts/private_production_upgrade.py:1033-1058 | Users, the container engine and an orphaned actor can never break the invariant or the rules by themselves. |
| UpgradeEffects.HostIsFree | scripts/private_production_upgrade.py:1033-1058 | What lawfulness is up against: at any moment a service may stop, behind an open gate one may start, and wherever the gate is open or the application runs a user may write, which ages every pair. |
| UpgradeEffects.ClaimJournal | scripts/private_production_upgrade.py:879-886 | A first claim under its pair's own fence keeps the invariant and the rules. |
| UpgradeEffects.ClaimForwardFix | scripts/private_production_upgrade.py:870-886 | A forward fix may be claimed while its predecessor still is unfinished. |
| UpgradeEffects.RetireJournal | scripts/private_production_upgrade.py:950-953 | An unfinished upgrade may be superseded at any time, and abandoned while it has no orphan and has touched no identity, another unfinished one beside it or not. |
| UpgradeEffects.RewriteJournal | scripts/private_production_upgrade.py:844-851 | Writing the claim in memory is lawful whenever its marks only move forward and each mark that it announces is covered by the fences. |
| UpgradeEffects.CapturePair | deploy/public-production/bin/recovery:418-448 | A published pair is new, equals the live databases and is nobody's served pair; whatever line the recovery journal holds stays true. |
| UpgradeEffects.NameCapture | deploy/public-production/bin/recovery:444-446 | The closing line of a capture may be written over a pair that still is exactly what is live. |
| UpgradeEffects.ThawGate | deploy/public-production/bin/recovery:450-459 | Each move of a thaw's gate keeps the invariant while the pair's line still stands, because the roles were admitted before it. |
| UpgradeRules.PermittedIsLawful | scripts/private_production_upgrade.py:1010-1200 | The write-ahead discipline is sufficient: every effect it permits obeys the rules of a run and leaves the tool able to go on or to fail. |
| UpgradeRules.OwnJournalFits | scripts/private_production_upgrade.py:1224-1243 | In every state of a run the journal on disk of an upgrade without a rival is one the tool may take up again. |
| UpgradeRules.ContinuousIsQuiet | scripts/private_production_upgrade.py:997-1008 | fence_continuous is sound in every state that keeps the invariant, the announced fence of this run's own maintenance included. |
| UpgradeRules.RestoredIsExact | scripts/private_production_upgrade.py:1266-1274 | Where a backup's fence stands again and the schemas have the pair's versions, the live databases are exactly what the pair captured. |
| UpgradeRules.PrefixIsAccepted | scripts/private_production_upgrade.py:1037-1053 | Whatever beginning of the inventory an interrupted actor committed, its target's Flyway accepts it, with the rest pending. |
| UpgradeTool.Upgrade.Do | scripts/private_production_upgrade.py:844-851 | Every effect may be refused, lose its acknowledgement, be cancelled or be the last before a kill: the schedule's tick says exactly which, whether the effect is there and what the host does after it; all of it stays in the run. |
| UpgradeTool.Upgrade.Apply | scripts/private_production_upgrade.py:853-893 | A completed first claim ends in the one completed state of its plan and pair; undisturbed from a verified fence it does complete, with application, edge, Keycloak, database, telemetry, monitoring, localizer and Grafana all running. |
| UpgradeTool.Upgrade.First | scripts/private_production_upgrade.py:955-990 | A claim is made only under the pair's own closed fence with the pair's schemas and nothing able to write; undisturbed it changes nothing but the journal. |
| UpgradeTool.Upgrade.ForwardFix | scripts/private_production_upgrade.py:870-893 | A completed forward fix ends in the one completed state of its own plan over its predecessor's run, pair and baseline; undisturbed, over an unbroken fence or a reopened predecessor, it does complete with every service running. |
| UpgradeTool.Upgrade.Inherit | scripts/private_production_upgrade.py:870-888 | Ends with the fix's claim and plan on disk, the predecessor superseded, its kept texts carried and every other journal untouched; undisturbed it gets there. |
| UpgradeTool.Upgrade.Carry | scripts/private_production_upgrade.py:895-938 | The carried notice baseline is the predecessor's, unchanged; without one, the live texts still are the recorded ones. |
| UpgradeTool.Upgrade.Resume | scripts/private_production_upgrade.py:1224-1243 | A completed resume ends in the same completed state as apply; undisturbed, from any state with an unbroken fence or a reopened claim, it does complete with every service running. |
| UpgradeTool.Upgrade.TakeUp | scripts/private_production_upgrade.py:1236-1241 | Succeeds only without an orphan and with an unbroken fence or a reopened claim, and then exactly the journal's status has changed; undisturbed the database runs. |
| UpgradeTool.Upgrade.Abandon | scripts/private_production_upgrade.py:1250-1274 | Gives up exactly this claim, with identity untouched; goes back to the pair's own fence exactly where the fence was continuous, and then both databases equal the pair and nothing was written since; undisturbed it succeeds wherever nothing irreversible has begun. |
| UpgradeTool.Upgrade.Execute | scripts/private_production_upgrade.py:1010-1031 | The phases in order end only in the one completed state of the claim; undisturbed they complete with every service running; a run that fails is marked failed, and where it says that it was contained the runtime is shut under this upgrade's fence with nobody able to log in. |
| UpgradeTool.Upgrade.MarkAndLend | scripts/private_production_upgrade.py:1041-1053 | The mark is durable before the one role is lent; it returns normally only with the role withdrawn again and no session left. |
| UpgradeTool.Upgrade.Migrate | scripts/private_production_upgrade.py:1037-1058 | Returns only with Flyway at the target's endpoint and no actor left, whatever was committed before; completes undisturbed from every beginning of the inventory. |
| UpgradeTool.Upgrade.StartIdentity | scripts/private_production_upgrade.py:1080-1088 | The mark is durable before the target's Keycloak starts, and accounts survive its startup or the phase fails. |
| UpgradeTool.Upgrade.AlignNotice | scripts/private_production_upgrade.py:1089-1096 | The first snapshot holds the claim's recorded texts from before any write, an existing one must agree, only a reviewed notice moves and nothing but it, and it ends as the approved one. |
| UpgradeTool.Upgrade.Identify | scripts/private_production_upgrade.py:1080-1114 | Ends with the reviewed session policy, preserved identity unless reopened before, and an approved notice over the snapshot's texts. |
| UpgradeTool.Upgrade.Replace | scripts/private_production_upgrade.py:1116-1127 | Every changed persistent service but Keycloak has a container of the target before ACTIVE names it. |
| UpgradeTool.Upgrade.Reopen | scripts/private_production_upgrade.py:1134-1142 | Mark, roles, gate and recovery journal, in this order; ends with the target in service. |
| UpgradeTool.Upgrade.Activate | scripts/private_production_upgrade.py:1144-1163 | Only optional services may end degraded, and only by their own failure; this run's identity fence, and no other's, is released first; undisturbed every service of the runtime, each by name, runs at the end. |
| UpgradeTool.Upgrade.LaunchOptional | scripts/private_production_upgrade.py:1152-1162 | An optional service that fails, before or after it was started, is recorded as degraded and tolerated; a cancellation there ends the run, and a kill the process. |
| UpgradeTool.Upgrade.Probe | scripts/private_production_upgrade.py:1165-1180 | The smoke phase passes only over the target in service, unfenced, where the required services run, and the optional ones that had not failed. |
| UpgradeTool.Upgrade.ServiceSteps | scripts/private_production_upgrade.py:1023-1028 | Activation, smoke and finalizing end only in the completed state, by way of a moment in the smoke phase at which every required service ran behind an open, unfenced gate; undisturbed they get there with every service running. |
| UpgradeTool.Upgrade.Conclude | scripts/private_production_upgrade.py:1182-1192 | Completion is recorded only over the target in service, after a look that found application, edge, Keycloak, database, telemetry, Prometheus, node exporter and blackbox running, and the localizer and Grafana unless they had failed. |
| UpgradeTool.Upgrade.Refence | scripts/private_production_upgrade.py:1194-1200 | From any point of an upgrade back to the one shut state, with nothing moved but doors, roles, services and the host's own writes. |
| UpgradeTool.Upgrade.Fail | scripts/private_production_upgrade.py:1202-1215 | The claim is marked failed; a containment reported as confirmed leaves the runtime shut with nobody able to log in, whether or not the journal could be written; undisturbed it is confirmed and durable, and only the fenced services were stopped. |
| UpgradeTool.Upgrade.Fence | deploy/public-production/bin/recovery:370-386 | The canonical fence ends with the gate closed, nobody able to log in, no session, and edge, application, Keycloak and Grafana down; wherever it stops or dies, nothing is more open than before. |
| UpgradeSession.Backup | deploy/public-production/bin/recovery:418-448 | A published pair is new and equals the live databases under its own fence, signed only after publication; refused under a maintenance owner, and undisturbed it succeeds otherwise. |
| UpgradeSession.Thaw | deploy/public-production/bin/recovery:450-459 | Opens the gate only over a backup's own fence without a maintenance owner and with nobody able to log in, roles first and line last, each its own effect; at its end application, migrator, Keycloak and reader may all log in; undisturbed over a drained fence it succeeds. |
| UpgradeSession.ExitForeign | deploy/public-production/bin/identity-maintenance:94-103 | Releases only the fence of the given run, upgrades' own included; the run stays lawful, and strict unless an upgrade that has touched identity is unfinished. |
| Flyway.SortedIncreases | scripts/private_production_upgrade.py:185-193 | An inventory of pairwise distinct version keys is sorted into strictly increasing order of keys. |
| Flyway.Sorted | scripts/private_production_upgrade.py:185-193 | Sorting keeps exactly the files of the source. |
| FlywayVersions.VersionsCompareAsNumbers | scripts/private_production_upgrade.py:193-197 | For all numbers a, b, c, d, printed in decimal with any number of leading zeros: version a.b is ordered before c.d if and only if a < c, or a = c and b < d, and the keys are equal exactly when both numbers are. |
| FlywayVersions.SortedAscends | scripts/private_production_upgrade.py:185-193 | A sorted inventory holds the same files, ascends in those numbers, and no file has greater numbers than its last one. |
| FlywayVersions.DigitPairsRead | scripts/private_production_upgrade.py:189-191 | Every version of two nonempty digit strings is such a pair of numbers, so none is left out. |
| Flyway.FlywaySplit | scripts/private_production_upgrade.py:200-217 | The split is accepted if and only if neither list is longer than 2000, every row succeeded, and the applied versions are exactly a prefix of the inventory, each with the file's own script and checksum; what is pending is the complementary suffix, in order, between the history's last row and the inventory's last file. |
| Flyway.AcceptedRowsAreFiles | scripts/private_production_upgrade.py:203-217 | Every row of an accepted history succeeded and has some file's own version, script and checksum; pending are exactly the scripts of the files whose version no row has. |
| Flyway.AcceptedIsPrefix | scripts/private_production_upgrade.py:200-217 | Where rows were installed in version order, an accepted history is the inventory's beginning row for row, and nothing is pending exactly when it is all of it. |
| Flyway.NextRowKeepsOrder | scripts/private_production_upgrade.py:1041-1053 | Committing the next file keeps the installation order and the agreement with the inventory. |
| Flyway.SameLastVersion | deploy/public-production/bin/recovery:388-393 | Two histories of which one extends the other in version order are equal as soon as their last versions are, which is what comparing schema metadata relies on. |
| FlywayChecksum.Checksum | scripts/private_production_upgrade.py:173-182 | The line-by-line fold is the signed CRC-32 of the whole file without one leading byte order mark, carriage returns and line feeds; exactly the ill-formed UTF-8 files have none. |
| FlywayChecksum.FileCheckValue | scripts/private_production_upgrade.py:173-182 | The nine digits from 1 to 9 on two lines after a byte order mark sum to the customary check value 0xCBF43926, as a signed number. |
| FlywayChecksum.CheckValue | scripts/private_production_upgrade.py:179-181 | The CRC-32 of the nine digits is that value. |
| FlywayChecksum.Crc32Composes | scripts/private_production_upgrade.py:179-181 | Checksums of pieces, each continued from the one before, make the checksum of the whole. |
| FlywayChecksum.DecodedEncodes | scripts/private_production_upgrade.py:175-181 | Decoding loses nothing: every accepted file is the encoding of its text. |
| FlywayChecksum.IllFormedIsRefused | scripts/private_production_upgrade.py:175-175 | Surrogates, numbers beyond the last code point, longer forms than needed, stray tails and truncated sequences are refused. |
| FlywayChecksum.EncodedDecodes | scripts/private_production_upgrade.py:175-181 | Every text of Unicode scalar values survives encoding and strict decoding. |
| FlywayChecksum.EncodedExamples | scripts/private_production_upgrade.py:175-181 | One code point of each length is encoded as in section 7 of RFC 3629. |
| FlywayChecksum.StrippedEncodes | scripts/private_production_upgrade.py:175-181 | The bytes that are summed are the file's own, stripped of mark and line breaks. |
| FlywayChecksum.LinesJoin | scripts/private_production_upgrade.py:176-178 | Whatever the line endings, the lines join to the text without them. |
| FlywayChecksum.LastEmptyIsIrrelevant | scripts/private_production_upgrade.py:177-178 | Dropping a last empty line never changes what is summed. |
| FlywayChecksum.LineEndingsAreIrrelevant | scripts/private_production_upgrade.py:173-182 | Changing the style of a line ending, wherever it stands, keeps the checksum's input. |
| FlywayChecksum.EditIsNoticed | scripts/private_production_upgrade.py:173-182 | Changing any other single byte changes the checksum, unless the edit makes or unmakes a byte order mark. |
| FlywayChecksum.SignedIsBounded | scripts/private_production_upgrade.py:182-182 | The result is the signed 32-bit number of the same bits. |
| Reconcile.Reconcile | scripts/private_production_upgrade.py:367-385 | Of its own result: a service of which the rendering says nothing new stays as it runs and is no change; every other one is a change, takes image, environment, volumes, memory and the rest from the rendering and keeps its labels but the upgrade's own, and its changes name exactly the fields that differ, or the bound files where none does. Which renderings it accepts is `AcceptedExactly`. |
| Reconcile.AcceptedExactly | scripts/private_production_upgrade.py:310-385 | Accepted if and only if sections and inventory agree and every service says nothing new or changes only what an upgrade may: never PostgreSQL, images of the five published services, memory upwards, new ordinary settings, the version, the three reviewed administration values, read-only binds from the target bundle or the TLS inputs, and no mount lost but the dashboard override. |
| Reconcile.MarkChanged | scripts/private_production_upgrade.py:387-391 | Exactly the changed services carry the revision in the upgrade's label; nothing else of any service moves. |
| Reconcile.SecondReconcileIsStill | scripts/private_production_upgrade.py:367-391 | Reconciling the same rendering over the configuration it led to is accepted, changes nothing and yields it again. |
| Reconcile.ChainKeeps | scripts/private_production_upgrade.py:310-335 | Over any chain of accepted upgrades: same services, PostgreSQL untouched, durable volumes and unclassified fields equal, memory never lower, labels and settings kept, new binds read-only and reviewed. |
| Reconcile.AllowedKeepsSettings | scripts/private_production_admin.py:30-46 | An existing setting moves only as the version or to the exact administration value, and no protected one appears. |
| Lease.ExitIsFenced | scripts/install_private_production.py:163-204 | In every interleaving, down to the single statements of fence, opening and closing: a helper of a first installation that exited past its claim ends neither fenced nor released if and only if it was not released and either a signal struck between claim and guarded region or inside the fence, or an opening struck READY or PENDING after the fence had dealt with it and no closing put that file right again. |
| Lease.ReleaseNeedsBothMessages | scripts/install_private_production.py:186-196 | The owner ends as released only after COMMIT and then RELEASE were sent and answered. |
| Lease.ReconciliationEndsClosed | scripts/install_private_production.py:178-204 | A reconciliation that got past its checks ends closed unless one of those two accidents befell it; over an owner not left interrupted before, exactly then. |
| Lease.SuccessIsReleased | scripts/install_private_production.py:919-978 | The journal says success only after the helper wrote its release, said so and exited zero; that it does get there is `InstalledExactly`. |
| LeaseProgress.InstalledExactly | scripts/install_private_production.py:163-204 | From every start of a first installation, twenty-one rounds in which both sides move and nobody is signalled, fails or dies, with gate openings and closings in between, end in success, the owner released and the helper exited zero if and only if the owner was unclaimed and the gate empty. |
| LeaseProgress.FairRoundsConclude | scripts/install_private_production.py:163-204 | The same from every state that any run from such a start reaches without a side having failed; and a reconciliation of a claimed owner likewise ends recorded, with the owner interrupted and the helper exited zero. |
| LeaseProgress.RecordedEndedWell | scripts/install_private_production.py:919-978 | Whatever happens, the controller records only what its helper ended with zero. |
| LeaseProgress.AbandonedHelperIsFenced | scripts/install_private_production.py:184-204 | However its controller went, by leaving, failing or dying: a claimed helper that met with neither accident needs at most fifteen of its own statements to end released or fenced. |
| LeaseProgress.FailureIsNeverSuccess | scripts/install_private_production.py:919-978 | An installation whose controller failed or died before it recorded anything never says success, whatever happens afterwards. |
| LeaseProgress.ClosingCloses | scripts/install_private_production.py:206-255 | A closing that the working controller may make removes READY and writes PENDING, whatever was there. |
| Lease.LostPeerIsFenced | scripts/install_private_production.py:184-204 | A claimed helper whose controller is lost, and that met with neither accident so far, needs at most fifteen of its own statements to end released or fenced. |
| Lease.SignalInTheGap | scripts/install_private_production.py:172-185 | A concrete run: a signal between the claim and the guarded region leaves a claim without a fence. |
| Lease.SignalInTheFence | scripts/install_private_production.py:172-203 | A concrete run from an empty gate: a second signal inside the fence leaves the claim as it was and no PENDING. |
| Lease.LateOpening | scripts/install_private_production.py:184-255 | A concrete run from an empty gate: an opening in flight when the controller fails lands on the completed fence and opens the gate. |
| NoticeAlign.Actor.Align | scripts/production_registration_notice.py:96-133 | While others may change the rest of the realm before any of its calls: wherever it stops, the first snapshot is kept and the texts are the original or its approved successor; on success exactly the Spanish terms text differs from the original and the rest of the realm is as the snapshot recorded it; undisturbed over a reviewed notice it succeeds. |
| NoticeAlign.Actor.Campaign | scripts/production_registration_notice.py:96-133 | Any number of runs and checks, each ending anywhere, keep the first snapshot and the texts within those two. |
| NoticeAlign.ExpectedIsSettled | scripts/production_registration_notice.py:103-104 | The expected texts differ from the original in the one notice only, and expecting them again changes nothing. |
| Deployment.Deployment.Attempt | scripts/public_production_deployment.py:214-325 | A host marked by a killed attempt refuses and stays as it is; a success is the same image stopped, migrated and activated in this order and recorded with its source, schema, configuration, history and image; an older release keeps schema inventory and history; a failure is recorded of this release, remembers what was installed, and serves nothing or says that its stop failed; undisturbed a newer release, or an older one as a rollback over the recorded schema, succeeds. |
| Deployment.Deployment.Campaign | scripts/public_production_deployment.py:214-325 | Any history of attempts keeps the recorded outcomes true and never moves a host that awaits assessment. |
| Deployment.Deployment.Change | scripts/public_production_deployment.py:269-302 | Activation only follows the stop and the migration of the same image; a rollback that succeeds has not moved the schema history. |
| Deployment.Deployment.Preflight | scripts/public_production_deployment.py:135-191 | Changes nothing; passes only where an undisturbed attempt would succeed: an assessed host that runs what is recorded, the recorded configuration, and a newer release or, as an explicit rollback over the recorded schema, an older one. |
| RuntimeEnv.ParseRuntimeEnv | scripts/prepare_private_production.py:146-157 | The loop accepts exactly the specified files and yields their settings; which these are is `ParsedExactly`. |
| RuntimeEnv.ParsedExactly | scripts/prepare_private_production.py:146-157 | Accepted if and only if each line is blank, a comment or a setting, of a capitalised key and a nonempty value without dollars, quotes and nulls, and no two settings share a key; the map then says what its settings say and nothing else. |
| RuntimeEnv.EndIsOptional | scripts/prepare_private_production.py:146-157 | The last line counts whether or not it is ended. |
| RuntimeEnv.AnyBreakEnds | scripts/prepare_private_production.py:148-148 | Any line break ends a line, and a carriage return with its line feed ends only one. |
| RuntimeEnv.RoundTrip | scripts/prepare_private_production.py:146-157 | A map survives printing, in any order, and parsing if and only if its keys are valid and its values nonempty, unquoted, dollar-free and without line breaks. |
| RuntimeEnv.ParsedIsPrintable | scripts/prepare_private_production.py:146-157 | Every accepted file holds only settings that survive printing. |
| RuntimeEnv.UpdateLosesNothing | scripts/private_production_upgrade.py:627-638 | Reading, updating with such settings and printing loses nothing, so neither does any number of upgrades. |
| ProcessArguments.EffectiveProcess | scripts/install_private_production.py:689-714 | Refuses exactly the unpaired dollars; otherwise the container engine's own merge rule over the decoded overrides, for every null, empty and nonempty combination; rendered words that say something run as they were written, whatever the image says. |
| ProcessArguments.EngineRuleCaseByCase | scripts/install_private_production.py:704-714 | The merge rule in its cases: a spoken entrypoint stands alone with the service's command, one empty word means none, a silent one lets the image's command through unless the service has one, and only an absent one inherits the image's entrypoint. |
| ProcessArguments.AcceptedIsRendered | scripts/install_private_production.py:697-703 | What is accepted is exactly what doubling every dollar can produce, and decoding is its inverse. |
| ProcessArguments.RenderedRunsAsWritten | scripts/install_private_production.py:692-703 | An argv that was rendered is read back as written. |
| RepairSweep.Generate | scripts/repair-release-stages.py:35-39 | The generator's loop yields the specified windows, and says whether it leaves the calendar. |
| RepairSweep.WindowsPartition | scripts/repair-release-stages.py:35-39 | Windows are consecutive, disjoint, of exactly the given length but for the last, and end exactly at the end. |
| RepairSweep.WindowsCover | scripts/repair-release-stages.py:35-39 | Together they are exactly the requested days. |
| RepairSweep.ResumeIsSuffix | scripts/repair-release-stages.py:71-83 | Resuming after any number of windows yields exactly the remaining ones. |
| RepairSweep.LeavesTheCalendar | scripts/repair-release-stages.py:35-39 | The generator overflows exactly when its last window, taken at full length, would. |
| RepairSweep.AcceptedCanOverflow | scripts/repair-release-stages.py:57-58 | The option check lets through ranges that overflow: the last date but one, alone, in windows of 31 days. |
| RepairSweep.Sweep.Run | scripts/repair-release-stages.py:71-83 | One run passes exactly the windows before the first that fails or is killed, its checkpoint is the day after them, and the days counted as succeeded are theirs and those of a window that reported before its kill; completion means the whole range. |
| Containment.Engine.StopOwned | scripts/private_production_control.py:260-281 | While containers start, exit, appear and vanish between its calls: only containers of the attempt's own run, configuration, project and services that an inspection since the last listing truly found running are ever signalled, each signal directly after a confirmed lease; it returns only within its budget and with every container of the run's last listing seen not running since, confirmed exactly when no command was cut short; undisturbed it stops all of them and nothing else, and also where they are all started again right after the first stop. |
| Containment.Engine.Inventory | scripts/private_production_control.py:243-257 | What it reports is the attempt's own and was running when inspected; every other listed container was seen stopped since the listing, and any ambiguous label refuses. |
| Containment.Engine.SignalOwned | scripts/private_production_control.py:268-276 | Any set of containers found running may be signalled behind a fresh lease check without the log ceasing to be careful; undisturbed exactly these stop. |
| Containment.EngineIsFree | scripts/private_production_control.py:260-281 | What carefulness is up against: at any moment containers appear, start, exit and vanish, the lease is lost, and time passes. |

## Left out

- UpgradeSession.Backup: the dumps and their encryption are one effect with the publication; the scheduled capture's own reopening is not modelled.
- UpgradeSession.Run: a resume beside a rival is reckless even where a foreign maintenance owner, a contradicted history or an unknown notice would stop it before it does harm.
- UpgradeTheorems.ReopeningIsExact: texts carried for a fix that was then killed before its claim stay kept for that target; a later first claim of it is held to them by the notice actor, but not proved to have recorded the same ones.
- UpgradeTool.Upgrade.Do: failures of the tool's scratch files, receipts and evidence copies beside the journal, plan, pointer and snapshot are failures of the next effect.
- UpgradeTool.Upgrade.Migrate: Flyway commits file by file in version order, each atomically; a failed row is an observation that the split refuses.
- UpgradeTool.Upgrade.Identify: digests are abstracted to accounts, localization texts and everything else; the administration console's attribute actor changes nothing modelled.
- UpgradeTool.Upgrade.Replace: recreating a container is not modelled to stop the old one, because no promise rests on what a changed service does before activation.
- UpgradeTool.Upgrade.Conclude: the data and reader comparisons of the smoke phase are observations that may fail.
- UpgradeTool.Upgrade.Apply: the selection, staging, receipts and input checks before the lease are one observation that may fail; run identifiers are fresh numbers.
- Flyway.FlywaySplit: digits are the ASCII ones and version keys of malformed database versions are given a total meaning; the split refuses them before they are compared.
- FlywayChecksum.EditIsNoticed: an edit that makes or unmakes a byte order mark changes the length of what is summed, and a checksum may then collide.
- Reconcile.Reconcile: which of several refusals is reported is not modelled; labels are always present, as the rendering writes them.
- Reconcile.SecondReconcileIsStill: no two binds of a rendered service share a target, which Compose refuses.
- Lease.ExitIsFenced: SIGKILL of the helper itself, the descriptor handoff and the kernel lock are not modelled; the helper's own errors are signals.
- Lease.ReconciliationEndsClosed: over an owner left interrupted before, a torn reconciliation may still find everything closed; only the one direction is stated there.
- Deployment.Deployment.Attempt: provenance, isolation and secret checks are one observation that may fail; containers do not stop by themselves.
- RepairSweep.Sweep.Run: the cursor loop over games after the windows, whose termination rests on the server.
- RuntimeEnv.RoundTrip: file encoding and the newline translation of text files, which no accepted value can contain.
- Containment.Engine.StopOwned: command output, identifier syntax and the per-command timeouts are refusals or lateness of a call; the cancellation flag and session watch around it are not modelled.
- `validate_runtime`, `realm_import_delta`, provenance and publication checks: conjunctions over parsed documents.
- Concurrency between two operators: orders are taken one at a time, as the recovery lock makes them.

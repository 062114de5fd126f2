# Clipline: verified core

Clipline records games on Windows. This Dafny project models the parts of `apps/clipline-app` in which a
mistake costs a recording, a clip, a setting or an installation, and proves what those parts promise for
every input, every run and every interleaving.

| file | what it models |
|---|---|
| `RecorderState.dfy`, `Runtime.dfy`, `Supervisor.dfy`, `SupervisorProgress.dfy` | the recorder supervisor: its protected state, the methods that update it under a lock, what holds over all interleavings of its threads, and what each of their steps achieves |
| `SettingsSave.dfy`, `SettingsStore.dfy` | saving settings as a compensating transaction, and concurrent updates of the file and the live settings |
| `ChunkedUpload.dfy`, `UploadLeases.dfy` | the chunked upload protocol with retries and fallback, and the registry of files in use by uploads |
| `CloudCache.dfy` | eviction from the cloud cache |
| `FfmpegRuntime.dfy`, `InstallControl.dfy` | installing, publishing and verifying the managed FFmpeg runtime, and its cancel boundary |
| `Vdf.dfy` | the reader for Valve's key-value files |
| `MatchPoller.dfy` | the League match poller |
| `GameIdentity.dfy` | identifiers for migrated custom games |
| `ProcessTree.dfy` | the walk over a process snapshot |
| `Chars.dfy`, `Wrappers.dfy` | character classes, and option and result types |

State the program updates in place is a class whose methods follow the program statement by statement. The
methods are proved against specification functions or against the promised property itself, and the main
theorems are about those functions. Threads are modelled as events: one event is one critical section, or
one action a thread takes between two of them. Fallible outside services are scripts saying which call
fails; every theorem holds for every script.

`dafny verify dfyconfig.toml` checks the whole project.

## Methods and their specification functions

These classes update their fields as the program does, and each method is proved to leave exactly what a
function of the state before it says. The theorems listed under Model are about those functions.

| class | source | specified by |
|---|---|---|
| `Runtime.RuntimeState` | `apps/clipline-app/src/app.rs` 1136-1210, 1368-1449, 1518-1590, 1733-1751, 1887-1986, 2028-2120 | `RecorderState` |
| `MatchPoller.MatchLifecycle`, `MatchPoller.QueueLookupState` | `apps/clipline-app/src/markers.rs` 56-125 | `PollSucceeded`, `PollFailed`, `ResetLookup`, `BeginNext`, `CompleteLookup` |
| `MatchPoller.PollerThread` | `apps/clipline-app/src/markers.rs` 147-165, 220-339 | `Drain`, `Polled`, `Missed`, `Turned`, `Run` |
| `InstallControl.Controller` | `apps/clipline-app/src/ffmpeg_install.rs` 120-184 | `RequestCancel`, `BeginPublishing`, `TryBeginJob`, `EndJob` |
| `UploadLeases.Sources` | `apps/clipline-app/src/cloud_upload.rs` 148, 168-178 | `Acquired`, `Dropped` |

## What late installs rest on

A recorder spawned for a prepared plan is installed later without looking at policy or gate again. That is
safe because every other section retires the plan in time, and because the commands of the user interface
run one at a time: none of start, stop, settings saves and quota rechecks is an asynchronous command, and
synchronous ones run on the main thread (`apps/clipline-app/src/app.rs` 2281-2296, 2756-2763, 3063-3067,
3366-3367). `Supervisor.Enabled` says so, while detections, service events and the recording hotkey may
fall anywhere. `Supervisor.PolicyKeptExactly` tells what a quota recheck on a second thread would break.

## Where the program falls short of its promise

- **Saving settings is not quite all or nothing.** When the startup entry is written but reading it back
  fails, the save fails and everything is restored but the startup entry. The contract of
  `SettingsSave.Desktop.SaveSettings` says that this is the only case and which calls lead to it, and
  `SettingsSave.StartupEntryLeftBehind` is a save in which it happens.
- **A uniquified migrated id can be invalid.** A stem cut right after a hyphen leaves two hyphens in a row.
  `GameIdentity.UniqueMigratedId` states the exact condition for the id it returns, and
  `GameIdentity.CutAfterHyphenIsInvalid` which ids run into it.

## Model

| member | source | states |
|---|---|---|
| RecorderState.WaitingIsAnnouncedTruly | apps/clipline-app/src/app.rs:1301-1309 | a restart or settings commit announces waiting for a game exactly when the state it leaves is waiting for one |
| Supervisor.StepKeepsConsistency | apps/clipline-app/src/app.rs:1161-1623 | one inductive invariant of every critical section and every action outside the lock: generations identify services, a current plan implies intent and no sender, and every spawned service has exactly one owner |
| Supervisor.RunKeepsConsistency | apps/clipline-app/src/app.rs:1161-2142 | the invariant after any interleaving of any length |
| Supervisor.NoOrphanRecorder | apps/clipline-app/src/app.rs:1451-1490 | no orphan recorder: a spawned service is installed, told to stop, ended, or held by exactly one thread that neither installed nor told it yet |
| Supervisor.HolderInstallsOrStops | apps/clipline-app/src/app.rs:1462-1475 | the thread holding a service can always move, and its moves end with the service installed or told to stop |
| Supervisor.OnlyTheInstalledServiceIsHeard | apps/clipline-app/src/app.rs:4173-4199 | stale isolation: a status or quota event is accepted if and only if it comes from the installed service; any other leaves the state alone |
| Supervisor.UserStopWins | apps/clipline-app/src/app.rs:1924-1938 | after a user stop no sender is ever installed unless the user starts the recorder or a session, through any pending plans, gates, detections and quota rechecks |
| Supervisor.QuotaBlockWins | apps/clipline-app/src/app.rs:1169-1210 | under a quota block nothing installs or replaces a recorder, and the blocked recorder stopping keeps the intent |
| Supervisor.StepKeepsIntent | apps/clipline-app/src/app.rs:1368-1449 | each step with successful option builds keeps a wanted recorder covered by a sender, a current plan or a pending start |
| Supervisor.NoLostRestart | apps/clipline-app/src/app.rs:1742-1751 | no lost restart, over every run in which option building succeeds |
| Supervisor.CurrentPlansAreAccepted | apps/clipline-app/src/app.rs:1436-1449 | after any run a plan offered for installation is accepted if and only if its generation is current and no quota block stands |
| Supervisor.PolicyKeptExactly | apps/clipline-app/src/app.rs:1436-1449 | from any consistent state, reachable or not, a plan stays allowed through a step if and only if the step is not a settings save, or session stop, closing policy under a quota block set over that plan |
| Supervisor.StepKeepsQuotaGuard | apps/clipline-app/src/app.rs:1674-1752 | rechecks come one at a time, and a quota block is never set over a plan that could still be installed |
| Supervisor.LateInstallsObeyPolicy | apps/clipline-app/src/app.rs:1436-1449 | whatever an install accepts after any run obeys policy and gate, option errors included |
| Supervisor.RunningObeysPolicy | apps/clipline-app/src/app.rs:1066-1091 | no recorder runs against policy: after any run an installed recorder is wanted and, unless quota is stopping it, manual or allowed by policy and gate |
| Supervisor.GateHoldsBackLeagueOnly | apps/clipline-app/src/app.rs:2051-2080 | after any run the gate blocks no game but League, and a League game newly seen behind a gate keeps the recorder off until the lookup answers, unless the session is manual |
| SupervisorProgress.PolicyMeans | apps/clipline-app/src/app.rs:1066-1091 | who may record, spelled out in settings, game and verdict |
| SupervisorProgress.NothingAtFirst | apps/clipline-app/src/app.rs:1136-1159 | the fresh program wants, runs, sees and blocks nothing |
| SupervisorProgress.StartAchieves | apps/clipline-app/src/app.rs:1887-1922 | a start makes the recorder wanted and, unless one runs or quota, policy, gate or options forbid it, installs a new one |
| SupervisorProgress.TailStartAchieves | apps/clipline-app/src/app.rs:1748-1750 | so does the start at the end of a quota recheck |
| SupervisorProgress.StopAchieves | apps/clipline-app/src/app.rs:1924-1938 | a stop ends intent, session and plans, and the service is owed a Stop |
| SupervisorProgress.SessionStartAchieves | apps/clipline-app/src/app.rs:1962-1973 | a session is on and wanted, in the recorder there is or a new one, unless quota blocks it |
| SupervisorProgress.SessionStopAchieves | apps/clipline-app/src/app.rs:1420-1434 | after a session the recorder goes on exactly if policy and gate let it, or quota is stopping it anyway |
| SupervisorProgress.DetectAchieves | apps/clipline-app/src/app.rs:2028-2080 | the configured game seen becomes current; a new window opens a verdict, and a new window or mode restarts the recorder, planning a new one if it should run |
| SupervisorProgress.GateTickAchieves | apps/clipline-app/src/app.rs:2086-2142 | an answer settles the verdict once, by the settings of the moment; permission restarts the recorder unless a session is running |
| SupervisorProgress.SaveSettingsAchieves | apps/clipline-app/src/app.rs:1518-1590 | settings are in force at once, a game they drop goes with its verdict, and the recorder is replaced on the spot or stopped |
| SupervisorProgress.StatusAchieves | apps/clipline-app/src/app.rs:1169-1186 | the installed service takes itself out with its last word, and the intent with it unless quota stopped it |
| SupervisorProgress.QuotaAchieves | apps/clipline-app/src/app.rs:1188-1210 | quota reported by the installed service blocks, and changes nothing else |
| SupervisorProgress.RecheckBeginAchieves | apps/clipline-app/src/app.rs:1682-1699 | a block is looked into exactly once the recorder has stopped |
| SupervisorProgress.RecheckSettleAchieves | apps/clipline-app/src/app.rs:1726-1750 | a recheck sets or lifts the block, and goes on to a start if it was lifted and the recorder is wanted |
| SupervisorProgress.InstallAchieves | apps/clipline-app/src/app.rs:1462-1475 | an accepted service is installed under a new generation, a refused one is owed a Stop |
| SupervisorProgress.StartReports | apps/clipline-app/src/app.rs:1887-1922 | what a start reports tells what it found and did |
| SupervisorProgress.SessionReports | apps/clipline-app/src/app.rs:1962-1973 | and so for a session |
| SupervisorProgress.SessionStopReports | apps/clipline-app/src/app.rs:1420-1434 | a stopped session is finalised by the recorder that ran it |
| SupervisorProgress.GateReports | apps/clipline-app/src/app.rs:2086-2120 | denial and permission are reported exactly when they are given |
| SupervisorProgress.CommitReports | apps/clipline-app/src/app.rs:1583-1589 | the commit hands out the old channel, the replacement and whether the game was dropped |
| SupervisorProgress.FirstStartRuns | apps/clipline-app/src/app.rs:1887-1922 | from a fresh program with nothing forbidding it a start is all it takes |
| SupervisorProgress.StopThenStartRuns | apps/clipline-app/src/app.rs:1887-1938 | a stop and a start later the recorder runs again, whatever was in flight, unless quota, policy or gate forbid it |
| SettingsSave.SyncFromSettled | apps/clipline-app/src/app.rs:2402-2460 | started from exactly the previous registrations, a successful synchronisation leaves exactly the next ones |
| SettingsSave.CountUpTo | apps/clipline-app/src/app.rs:2412-2459 | distinct members of a set are as many as the set only if they are all of it, so that the calls of a synchronisation can be counted |
| SettingsSave.Desktop.UnregisterAll | apps/clipline-app/src/app.rs:2443-2447 | undoing registrations goes on past failures and leaves behind exactly the ones that failed |
| SettingsSave.Desktop.RegisterAll | apps/clipline-app/src/app.rs:2438-2442 | re-registering goes on past failures and misses exactly the ones that failed |
| SettingsSave.Desktop.RegisterMissing | apps/clipline-app/src/app.rs:2414-2430 | the first phase: what is added, warned about or refused, over duplicates and partial registries |
| SettingsSave.Desktop.UnregisterDropped | apps/clipline-app/src/app.rs:2431-2458 | the second phase: exactly the dropped and registered shortcuts go, up to the first refusal |
| SettingsSave.Desktop.SyncGlobalHotkeys | apps/clipline-app/src/app.rs:2402-2460 | transactional: success registers every new shortcut or warns about an old one and keeps no dropped one; failure restores the registry if and only if no rollback call fails; from exact registrations it succeeds if and only if none of the calls due fails |
| SettingsSave.Desktop.SetAutostart | apps/clipline-app/src/app.rs:2313-2324 | a write that takes effect stands even when reading it back fails, and what is read back is what the system says |
| SettingsSave.Desktop.RollbackSideEffects | apps/clipline-app/src/app.rs:3309-3353 | the compensation undoes exactly what had been applied, if its calls succeed |
| SettingsSave.Desktop.TakeBack | apps/clipline-app/src/app.rs:2437-2447 | both phases are undone if and only if no call fails |
| SettingsSave.Desktop.ApplyShortcuts | apps/clipline-app/src/app.rs:3408-3451 | how far shortcuts, hook and tray got, and that all three stages are passed if and only if none of the calls due fails |
| SettingsSave.Desktop.ApplyStartup | apps/clipline-app/src/app.rs:3452-3475 | the startup stage fails if and only if it is due and its write or its read-back fails |
| SettingsSave.Desktop.ApplySideEffects | apps/clipline-app/src/app.rs:3408-3475 | the side effects with their rollback, and exactly what a failure leaves behind |
| SettingsSave.Desktop.Persist | apps/clipline-app/src/app.rs:3476-3516 | the last stages: failure at any of them takes back everything that had been applied, if the compensating calls succeed |
| SettingsSave.Desktop.SaveSettings | apps/clipline-app/src/app.rs:3367-3516 | fails only when a call fails, and is all or nothing over registrations, hook, tray, autostart, file and live settings, from a settled desktop and with working compensation, except exactly when the calls before the startup entry succeed, its write takes effect and reading it back fails; a successful save takes what was requested, keeps the fields of the backend, and leaves every component showing it |
| SettingsSave.StartupEntryLeftBehind | apps/clipline-app/src/app.rs:3452-3475 | a concrete save in which one failing call leaves the startup entry behind |
| SettingsStore.StepStaysLinear | apps/clipline-app/src/app.rs:1795-1852 | every step of every thread keeps the live settings equal to the committed operations replayed in order |
| SettingsStore.UpdatesAreSerialised | apps/clipline-app/src/app.rs:1795-1852 | any interleaving of cloud updates, osu! updates and saves is equal to running the committed ones one after the other |
| SettingsStore.FileFollowsLive | apps/clipline-app/src/app.rs:3392-3516 | after a commit, whenever the save lock is free, file and live settings are equal, as long as compensating writes succeed |
| SettingsStore.CloudUpdateCommits | apps/clipline-app/src/app.rs:1795-1820 | a committed cloud update applies its function to the live cloud settings, on disk too, and touches nothing else |
| SettingsStore.OsuUpdateCommits | apps/clipline-app/src/app.rs:1829-1852 | a committed osu! update applies its function to the live osu! settings, on disk too, and touches nothing else |
| SettingsStore.SaveCommits | apps/clipline-app/src/app.rs:2187-2197 | a committed save takes what was requested but for what belongs to the backend |
| SettingsStore.OthersCommitNothing | apps/clipline-app/src/app.rs:1795-1852 | whatever is not committed leaves the live settings alone, and a failed write or a restored save the file |
| SettingsStore.OsuUpdateArrives | apps/clipline-app/src/app.rs:1829-1852 | alone from beginning to end an osu! update arrives, live and on disk |
| SettingsStore.CommittedOsuFactSurvives | apps/clipline-app/src/app.rs:2187-2197 | what a committed osu! update established is still so, live and on disk, after any run whose later osu! updates respect it |
| SettingsStore.CommittedFactSurvives | apps/clipline-app/src/app.rs:2187-2197 | what a committed cloud update established is still so, live and on disk, after any run whose later cloud updates respect it |
| SettingsStore.OsuUpdatesAlone | apps/clipline-app/src/app.rs:2187-2197 | the osu! settings depend on the osu! updates alone |
| ChunkedUpload.ValidateMissingParts | apps/clipline-app/src/cloud_upload.rs:1119-1162 | accepts exactly the duplicate-free lists of existing parts under a legal part size, and names what is wrong with the others |
| ChunkedUpload.PartsExist | apps/clipline-app/src/cloud_upload.rs:1033-1067 | a slice exists for exactly the parts 1 to ceil(size/part); it is non-empty, in range, at most 64 MiB and never overflows |
| ChunkedUpload.PartsDisjoint | apps/clipline-app/src/cloud_upload.rs:1033-1067 | slices of different parts share no byte |
| ChunkedUpload.PartExtends | apps/clipline-app/src/cloud_upload.rs:1033-1067 | each part begins where the one before it ends |
| ChunkedUpload.AssembledPrefix | apps/clipline-app/src/cloud_upload.rs:1033-1067 | the first n genuine parts concatenate to the first part of the file |
| ChunkedUpload.PartsReassemble | apps/clipline-app/src/cloud_upload.rs:1033-1067 | all genuine parts concatenate to exactly the file |
| ChunkedUpload.RetryAfterIsHonoured | apps/clipline-app/src/cloud_upload.rs:945-963 | a server's wish is honoured exactly, up to the ceiling, and never shortens the wait |
| ChunkedUpload.RetryDelaysGrow | apps/clipline-app/src/cloud_upload.rs:945-963 | whatever the jitter, a later attempt waits longer up to the ceiling |
| ChunkedUpload.Server.PutProxyPart | apps/clipline-app/src/cloud_upload.rs:766-823 | at most three attempts, ended by success, by a lasting failure or by the third; success means the part is stored |
| ChunkedUpload.RetryDelayWindow | apps/clipline-app/src/cloud_upload.rs:945-963 | pauses double from a quarter of a second on, with up to half on top, until the ceiling |
| ChunkedUpload.Server.DirectRound | apps/clipline-app/src/cloud_upload.rs:515-566 | one presign, put and acknowledgement, and exactly when another round is due |
| ChunkedUpload.Server.PutDirectPart | apps/clipline-app/src/cloud_upload.rs:505-574 | at most three presign and put rounds and one acknowledgement; success means the part is stored, and an unsupported endpoint or a presigned request for something else is exactly what asks for the fallback |
| ChunkedUpload.Server.UploadPart | apps/clipline-app/src/cloud_upload.rs:478-482 | a listed part is cut out of the file and stored; failure leaves only genuine parts |
| ChunkedUpload.Server.UploadListed | apps/clipline-app/src/cloud_upload.rs:427-448 | the work-list loop stores every listed part, and fails only over a request that fails |
| ChunkedUpload.Server.UploadChunked | apps/clipline-app/src/cloud_upload.rs:412-503 | success means the completed upload is the file, whatever part size and list the server named, legal or not, complete or not; a complete legal list with successful requests succeeds |
| ChunkedUpload.Server.UploadSingle | apps/clipline-app/src/cloud_upload.rs:368-410 | the whole file in one request, skipped when the upload is complete already |
| ChunkedUpload.Server.UploadExisting | apps/clipline-app/src/cloud_upload.rs:306-366 | the same for an existing upload in any mode, resumed parts included |
| ChunkedUpload.Server.Upload | apps/clipline-app/src/cloud_upload.rs:86-118 | the whole upload with its fallback from direct to proxy: whatever completes is exactly the file, and it completes when the server lists what is missing and its requests succeed, even if direct ones turn out unsupported or presigned for something else |
| UploadLeases.StepStaysExact | apps/clipline-app/src/cloud_upload.rs:132-180 | every step of acquiring and dropping keeps each count equal to the registered leases and positive |
| UploadLeases.CountsAreExact | apps/clipline-app/src/cloud_upload.rs:132-180 | over any interleaving a file has an entry if and only if it has registered leases, and the count is their number |
| UploadLeases.ShareLockedIsRegistered | apps/clipline-app/src/cloud_upload.rs:194-210 | whoever holds the registry lock finds every share-locked upload source registered |
| CloudCache.SortOrders | apps/clipline-app/src/cloud.rs:964-964 | the sort is oldest first and loses no entry and no byte |
| CloudCache.SortIsStable | apps/clipline-app/src/cloud.rs:964-964 | entries of the same age keep their order |
| CloudCache.EvictedAreUnprotected | apps/clipline-app/src/cloud.rs:975-995 | only unprotected entries that could be deleted are evicted |
| CloudCache.NoShorterPrefix | apps/clipline-app/src/cloud.rs:975-995 | no shorter oldest-first prefix holds every expired entry and covers the shortfall |
| CloudCache.EvictsShortestPrefix | apps/clipline-app/src/cloud.rs:975-995 | when deletes succeed the pass takes exactly that prefix |
| CloudCache.EvictionIsExact | apps/clipline-app/src/cloud.rs:961-995 | the same for an unsorted collection and the real shortfall |
| CloudCache.DecidedOneMore | apps/clipline-app/src/cloud.rs:975-997 | one more entry is decided on by what went before it, and changes no earlier decision |
| CloudCache.EvictOldest | apps/clipline-app/src/cloud.rs:975-997 | whatever deletes fail, an entry goes if and only if it is unprotected and deletable, and expired or found too little freed before it; bytes are counted |
| CloudCache.EnforceLimits | apps/clipline-app/src/cloud.rs:952-1010 | barring saturation every entry is decided on by that rule with the larger shortfall, freed plus remaining is the total, and the call succeeds if and only if the freed bytes reach the shortfall |
| FfmpegRuntime.VerifyRegularFile | apps/clipline-app/src/ffmpeg_runtime.rs:361-390 | accepts exactly a regular file of the given size and hash |
| FfmpegRuntime.CheckProvenance | apps/clipline-app/src/ffmpeg_runtime.rs:446-534 | accepts exactly a record that repeats the manifest, hashes compared without case |
| FfmpegRuntime.VerifyManagedRuntime | apps/clipline-app/src/ffmpeg_runtime.rs:395-546 | accepts exactly the trees holding the allowed files, a matching record, ffmpeg.exe and at most a readme besides |
| FfmpegRuntime.InstalledTreeIsAcceptable | apps/clipline-app/src/ffmpeg_install.rs:391-420 | what extraction and write_managed_provenance leave is accepted if and only if the manifest lists ffmpeg.exe |
| FfmpegRuntime.EntryNameIs | apps/clipline-app/src/ffmpeg_install.rs:348-352 | an entry is looked up under the archive root, without its trailing slashes, by its path with forward slashes |
| FfmpegRuntime.Directories.ExtractOne | apps/clipline-app/src/ffmpeg_install.rs:344-386 | stages one allowed file and hashes what was written; fails only over the archive, the allowlist, a cancellation or a failing call |
| FfmpegRuntime.Directories.Extract | apps/clipline-app/src/ffmpeg_install.rs:326-389 | success leaves exactly the allowed files with the promised sizes and hashes, and a record of each |
| FfmpegRuntime.Directories.Stage | apps/clipline-app/src/ffmpeg_install.rs:489-494 | a staged tree passed verification, which can refuse only a manifest that repeats a name, claims PROVENANCE.json or lacks ffmpeg.exe |
| FfmpegRuntime.Directories.MoveIntoPlace | apps/clipline-app/src/ffmpeg_install.rs:437-448 | the second rename, its clean-up and its way back: what each leaves where, and that it is safe |
| FfmpegRuntime.Directories.Publish | apps/clipline-app/src/ffmpeg_install.rs:423-449 | at every crash point the old tree is at the destination or in the backup until the new one is at the destination; a failed second rename puts the old tree back unless that fails too |
| FfmpegRuntime.Directories.Install | apps/clipline-app/src/ffmpeg_install.rs:475-504 | success leaves a tree that verification accepts; an error before publishing leaves destination and backups untouched; a sound manifest and archive without failing calls succeed |
| InstallControl.PublishingCannotBeCancelled | apps/clipline-app/src/ffmpeg_install.rs:120-152 | once publishing has begun no cancellation and no second start has any effect |
| InstallControl.CancelStopsTheJob | apps/clipline-app/src/ffmpeg_install.rs:120-152 | a cancellation during a job that is not publishing is noticed, and the job never publishes |
| InstallControl.CancelIsIgnored | apps/clipline-app/src/ffmpeg_install.rs:120-129 | without a job or during publishing it is not |
| InstallControl.JobsStart | apps/clipline-app/src/ffmpeg_install.rs:155-177 | a job starts unless one is running or seems to be, with no cancellation pending |
| InstallControl.JobsPublish | apps/clipline-app/src/ffmpeg_install.rs:142-184 | a job publishes unless it was cancelled, and ends in the phase it names |
| InstallControl.CancelledNeverPublishes | apps/clipline-app/src/ffmpeg_install.rs:120-152 | a cancellation that was noticed keeps the job from publishing, whatever else happens before it ends |
| Vdf.ParsedFlattens | apps/clipline-app/src/game_discovery.rs:515-563 | an accepted token list is the flattening of the returned tree, followed by what is left |
| Vdf.FlattenParses | apps/clipline-app/src/game_discovery.rs:515-563 | every flattening is accepted and read back as its tree, with the rest left over |
| Vdf.ParseIsExact | apps/clipline-app/src/game_discovery.rs:515-563 | at top level a list is accepted if and only if it flattens a tree, and that tree is returned |
| Vdf.ParseEntries | apps/clipline-app/src/game_discovery.rs:515-563 | the index-driven loop computes that parse and its index never moves back |
| Vdf.TokenizeVdf | apps/clipline-app/src/game_discovery.rs:460-513 | the character loop computes the tokenizer function, errors included |
| Vdf.ReadQuoted | apps/clipline-app/src/game_discovery.rs:465-494 | the inner loop reads a quoted string with its escapes |
| Vdf.GlyphsReadBack | apps/clipline-app/src/game_discovery.rs:465-494 | a quoted string with whatever escapes reads as what it means |
| Vdf.ReadHasGlyphs | apps/clipline-app/src/game_discovery.rs:465-494 | whatever reads as a quoted string was written as one |
| Vdf.RemarkTokenizes | apps/clipline-app/src/game_discovery.rs:497-503 | a comment, ended by a line feed or by the text, is skipped |
| Vdf.DocumentTokenizes | apps/clipline-app/src/game_discovery.rs:460-513 | a text tokenizes to what its strings and braces stand for, whatever white space, comments and escapes it has |
| Vdf.AcceptedIsDocument | apps/clipline-app/src/game_discovery.rs:460-513 | every accepted text is such a text: nothing else is skipped and nothing is made up |
| Vdf.PrintedTreeReadsBack | apps/clipline-app/src/game_discovery.rs:454-458 | writing any tree of any strings, with whatever white space, comments and escapes, and parsing the text gives the tree back |
| Vdf.AcceptedWasPrinted | apps/clipline-app/src/game_discovery.rs:454-458 | whatever parses was written as the tree it parses to |
| Vdf.EveryTreePrints | apps/clipline-app/src/game_discovery.rs:460-513 | every tree can be written |
| MatchPoller.TurnStaysInStep | apps/clipline-app/src/markers.rs:220-339 | one turn keeps the poller in agreement with what a listener makes of its messages |
| MatchPoller.AtFirst | apps/clipline-app/src/markers.rs:182-216 | how the poller begins, with and without a replay |
| MatchPoller.BoundedSays | apps/clipline-app/src/markers.rs:86-106 | which boundaries a successful poll sends, and what state it leaves |
| MatchPoller.PolledSays | apps/clipline-app/src/markers.rs:267-319 | summary, every event in order, then a lookup if due and the end of the match |
| MatchPoller.ConcludedSays | apps/clipline-app/src/markers.rs:295-317 | exactly when a lookup begins and how the state counts it |
| MatchPoller.MissedSays | apps/clipline-app/src/markers.rs:320-336 | a failed poll counts and says that the poller lives |
| MatchPoller.DrainSays | apps/clipline-app/src/markers.rs:221-240 | a result is delivered if and only if it is the open one of the match that is on |
| MatchPoller.DrainJoins | apps/clipline-app/src/markers.rs:221-240 | results are drained one after the other |
| MatchPoller.TurnSays | apps/clipline-app/src/markers.rs:220-339 | a turn without a player only says that it lives, and otherwise polls |
| MatchPoller.FiveFailuresAreSurvived | apps/clipline-app/src/markers.rs:108-116 | five failed polls in a row say nothing but that the poller lives |
| MatchPoller.SixthFailureEndsTheMatch | apps/clipline-app/src/markers.rs:108-116 | the sixth ends the match and forgets the player |
| MatchPoller.TracesAreWellFormed | apps/clipline-app/src/markers.rs:210-339 | over any turns the trace is well formed; an active match has fewer than six failures in a row and a known identity |
| MatchPoller.Spawn | apps/clipline-app/src/markers.rs:172-344 | the thread with a listener that may hang up at any message: what was heard is well formed and a prefix of the full trace, and all of it if nobody hangs up |
| MatchPoller.WellFormedMeans | apps/clipline-app/src/markers.rs:147-165 | in a well-formed trace starts and ends alternate, lookups begin during a match, and a start is followed at once by the replay tag |
| MatchPoller.OneTagPerStart | apps/clipline-app/src/markers.rs:56-83 | between two starts at most one queue tag and five lookups |
| GameIdentity.ValidMeans | apps/clipline-app/src/game_identity.rs:59-86 | what validation accepts, character by character |
| GameIdentity.EveryTextConsists | apps/clipline-app/src/game_identity.rs:95-104 | every text is words with filler around and between them |
| GameIdentity.MigratedIdSpelledOut | apps/clipline-app/src/game_identity.rs:88-113 | the migrated id of any old id and name: its words in lower case joined by single hyphens, cut to 80 characters without a hyphen at the end, or game |
| GameIdentity.TrimmingKeepsSlug | apps/clipline-app/src/game_identity.rs:95-104 | trimming first makes no difference |
| GameIdentity.CandidateIs | apps/clipline-app/src/game_identity.rs:124-126 | as much of the base as leaves room for the suffix, and the suffix |
| GameIdentity.DecimalReadsBack | apps/clipline-app/src/game_identity.rs:124-124 | the suffix is the counter in decimal |
| GameIdentity.MigratedIsValid | apps/clipline-app/src/game_identity.rs:88-113 | every migrated id passes validate_custom_game_id, whatever the old id and name |
| GameIdentity.MigrationKeepsCanonical | apps/clipline-app/src/game_identity.rs:88-113 | a canonical, short enough slug is only prefixed |
| GameIdentity.CandidatesDiffer | apps/clipline-app/src/game_identity.rs:124-126 | different suffix numbers give different candidates |
| GameIdentity.CounterIsBounded | apps/clipline-app/src/game_identity.rs:122-128 | the counter never runs more than three ahead of the number of names taken |
| GameIdentity.UniqueMigratedId | apps/clipline-app/src/game_identity.rs:115-131 | the loop ends for every occupied set, returns the first free name, adds exactly it, keeps to 96 bytes, and the id is valid if and only if it is the base or its stem was not cut right after a hyphen |
| GameIdentity.VariantValidity | apps/clipline-app/src/game_identity.rs:124-126 | a numbered variant is valid if and only if its stem was not cut right after a hyphen |
| GameIdentity.CutAfterHyphenIsInvalid | apps/clipline-app/src/game_identity.rs:124-126 | every canonical old id with a hyphen as the 78th of its 79 or 80 characters has an invalid second variant |
| GameIdentity.CutIdIsCanonical | apps/clipline-app/src/game_identity.rs:124-126 | there is such an id |
| ProcessTree.BuildIndex | apps/clipline-app/src/memory.rs:141-147 | the index lists exactly the children of every process that has any |
| ProcessTree.ClosedCoversChain | apps/clipline-app/src/memory.rs:152-162 | a set closed under children holds every process a chain reaches |
| ProcessTree.ChildProcessIds | apps/clipline-app/src/memory.rs:140-164 | no duplicates and never the root; with unique pids exactly the descendants other than the root and console hosts, whose children still count |

## Left out

- Supervisor.NoLostRestart: assumes that building service options succeeds; after an option error the program itself gives the restart up.
- ChunkedUpload.Server.Upload: assumes a source file that does not change during the upload (the lease is there for that) and a server that stores what it was sent and tells the truth about an upload being complete.
- ChunkedUpload.Server.PutDirectPart: a presigned request with unusable headers counts as an unsupported endpoint, which asks for the fallback just the same.
- GameIdentity.UniqueMigratedId: the suffix counter is a natural number, and the bounds on the id are stated below 2^32; the program's counter has 32 bits.
- ProcessTree.ChildProcessIds: does not state the order of the result; memory is summed over it.
- FfmpegRuntime.VerifyManagedRuntime: read errors are not modelled, file names are case-sensitive, and the provenance text is assumed to parse back to the record that was written.
- FfmpegRuntime.Directories.Extract: the check of allowlist entries for unsafe paths is an arbitrary predicate, and an archive entry is as long as the archive says.
- SettingsSave.Desktop.SaveSettings: the checks before the first side effect are one call that may fail, and the quota recheck after the commit belongs to the supervisor.
- SettingsStore.UpdatesAreSerialised: `normalize` is part of the update function an operation carries.
- The recorder service, encoders, replay ring and clip writer: a service is an identifier that accepts a Stop and reports events.
- The recording mode an in-flight plan carries, the save debounce, osu! title events and the events sent to the user interface.
- Lock poisoning, allocation failure, and the wrap-around of 64-bit generations after 2^64 restarts.
- The Stop sent when the application exits.
- HTTP, JSON, hashing, zip, clocks and Windows share modes: replies, hashes, contents and failures are parameters of the model.
- How cache entries are collected and stale temporary files swept, the pagination of cloud clips, upload-record lookup by path, and removing duplicate game candidates: they would add easier members only.
- Window and tray handling, WebView memory targets, sounds, dialogs and native calls.

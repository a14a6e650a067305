# The Zaentrum operator: verification

This project models how the Zaentrum operator reconciles a platform and its addons, and
proves what that reconciling promises. Run the verifier on it with
`dafny verify dfyconfig.toml`.

Three groups of modules:

- **The platform's pass.** `Jobs`, `Database`, `Restore`, `RealmRun` and `Verification` are
  the decisions of one pass, `Platform` puts them in the pass's order and interleaves passes
  with everything the cluster does by itself: Jobs end and go, pods come and go, the database
  is written, backups start, time passes, people change the spec and the annotations before
  any pass. `PlatformDatabase`, `PlatformRestore`, `PlatformExclusion`, `PlatformRuns`,
  `VerificationRuns` and `PlatformVerification` prove what holds in every run,
  `PlatformInstall` all of it together from a new install on. `PlatformMigration`,
  `RestoreResults`, `PlatformRealm` and `VerificationResults` say exactly, in the fields a
  pass is given, when the Postgres moves, what a restore ends in, when a realm run begins and
  what becomes of a verification; `LostRestores` and `LostRuns` what comes of a lost status
  write or of databases turned external. `Operator` is the pass as it works, a class whose
  methods change the cluster step by step, each proved against the part of `Platform.Pass`
  it is. `PostgresVolumes`, `BackupReport` and `Prune` are the parts of a pass with loops of
  their own.
- **The addon's pass.** `KillSwitch`, `KillSwitchRuns`, `KillSwitchPass` and
  `KillSwitchEscape` follow the VPN kill switch through every intermediate state;
  `ValuesSecrets` and `ValuesSecretsRuns` the Secrets that hold an addon's values, from
  adoption to removal.
- **The algorithms.** `Values` and `ValuesInPlace` (the values tree, as a value and as maps
  on the heap), `Generate`, `ChartCache`, `BoundedBody`, `ImageDigest`, `Report`, with
  `Sorting` under them.

Members that only compute have no row below; the lemma or method about them has.

## Assumptions

- Passes follow one another, each reading fresh. `PlatformRuns.OneVerificationAtATime` and
  `VerificationRuns.OneRunAtATime` do without: the status their passes read may be any.
- Only the operator edits or deletes its unfinished Jobs and the Postgres Deployment. Anyone
  may delete a finished Job, and others may make Jobs of their own, backups among them; the
  runs of `PlatformRestore` leave hand-made backups out, and `PlatformRestore.BackupAppearsIff`
  says what one of them changes.
- A copy that succeeds leaves on its target all that the database held when it began, and
  perhaps more of what it came to hold; one that fails may leave anything.
- The chart, which is not part of this model, renders every client of the database at zero
  replicas and the backups suspended while a dump is being restored; Keycloak is one of
  these clients; which Deployments are clients stays the same. With external databases it
  stops none and renders no restore Job. A pod appears only for a Deployment applied with
  replicas.
- Status writes succeed where a lemma says so (`Steady`); `LostRestores` and `LostRuns` say
  exactly what a loss does.
- A workload that the last whole apply dropped, or took off the VPN, starts no further pod
  on it; removal of an addon is outside the kill switch's runs.

## Findings

Properties the code does not have without a condition, each with the exact one:

- A pass that starts a restore Job and loses its status write leaves a Job nobody follows
  (`LostRestores.StatusWriteDecides`). The next pass lets a client's pod in beside it where
  nothing is asked any more that can start (`LostRestores.ClientMeetsRestoreIff`), and cuts
  it short where the request stands or status was waiting to start it
  (`LostRestores.RestoreCutShortIff`).
- A pass that begins a verification run and loses its status write lets a realm run begin
  beside it (`LostRuns.RealmMeetsVerificationIff`).
- With the databases turned external while a restore runs, its clients come back beside it
  (`LostRestores.ExternalMeetsClientIff`), and a realm run may begin in the pass that ends it
  (`PlatformRealm.BeginsInEndingPassIff`).
- A client dropped from the render is not waited for by the restore that pass starts
  (`LostRestores.DroppedClientIff`).
- With the migration turned off while a copy runs, the copy is no longer seen and a restore
  is taken up beside it (`PlatformExclusion.RestoreMeetsCopyIffMigrationOff`).
- A backup can run beside a restore where the CronJob is no longer rendered and could be
  neither pruned nor removed (`PlatformRestore.BackupMeetsRestoreIff`).
- A backup whose report cannot be read by the pass that first sees it succeed is named as the
  last success beside an older dump, or none, until a later one succeeds
  (`BackupReport.LatestIsPublishedIff`, `BackupReport.OlderDumpStaysIff`).
- The kill switch is pruned before the workloads dropped with it, which leaves a step in
  which such a workload could start a pod without it, exactly where the addon has no pod
  running on the VPN just then (`KillSwitchEscape.DroppedWorkloadCanEscape`).
- Values kept on a removal are garbage all the same where an earlier addon of the name still
  owned them (`ValuesSecretsRuns.KeptIsGarbageIffOrphaned`).
- The comment of `GenerateMissing` has a value generated for a field without one from a user.
  An empty string, null, or a leaf above the path counts as none there, but hides the
  generated value from the chart (`Generate.GeneratedShowsIff`, `Generate.GeneratedButHidden`).
- A pin drops part of a repository where the last segment of the image's path holds two
  colons, and only there (`ImageDigest.PinKeepsReference`, `ImageDigest.TwoTagsLoseTheFirst`).
- A chart archive whose connection breaks after exactly ten MiB is taken for a whole one
  (`BoundedBody.ReadAll`).
- A kind wrongly remembered as unserved keeps its stale objects for ten minutes
  (`Prune.MissedIffRemembered`); a pass that renders the kind and does not reach its prune
  leaves such a memory (`Prune.WrongMemoryIff`).

## Model

| member | source | states |
|---|---|---|
| `Operator.Cluster.Reconcile` | operator/internal/controller/zaentrum_controller.go:110-326 | One pass, statement by statement, leaves exactly the state `Platform.Pass` gives, wherever it breaks off, for the deletions that came through: all that could, unless one of the Jobs to go could not be deleted. |
| `Operator.Cluster.Finish` | operator/internal/controller/zaentrum_controller.go:237-319 | After the apply: the copy, the restore's step, the realm's and the verification's in that order, a lost component read and a lost status write among the outcomes. |
| `Operator.Cluster.PlanDatabase` | operator/internal/controller/database.go:85-180 | The loop-and-branch decision equals the specification the safety lemmas are about, deleting at the most the one stale copy. |
| `Operator.Cluster.First` | operator/internal/controller/database.go:291-294 | The head of a list sorted newest first, stable over the API server's order, found by one scan. |
| `Operator.Cluster.SwitchPostgres` | operator/internal/controller/zaentrum_controller.go:208-218 | The Postgres moves only when the plan switches, and only onto the plan's volume. |
| `Operator.Cluster.StartMigration` | operator/internal/controller/database.go:238-272 | A copy is made only when planned, never while a dump is rendered, and records its source and target. |
| `Operator.Cluster.ApplyAll` | operator/internal/controller/zaentrum_controller.go:438-463 | A whole apply leaves every rendered Deployment with its rendered replicas, and only what could not be pruned beside them. |
| `Operator.Cluster.ApplySome` | operator/internal/controller/zaentrum_controller.go:438-463 | An apply that breaks off leaves each object as rendered or as before. |
| `Operator.Cluster.StepRestore` | operator/internal/controller/restore.go:134-252 | The state machine of a restore: waiting, starting, reading, ending. |
| `Operator.Cluster.StartRestore` | operator/internal/controller/restore.go:187-204 | The previous restore Jobs go before the next one comes; a deletion that fails leaves those before it deleted and starts nothing. |
| `Operator.Cluster.EndRestore` | operator/internal/controller/restore.go:140-156 | The result and its time; after a success every realm run that can be is deleted, whichever of them cannot. |
| `Operator.Cluster.DeleteJobs` | operator/internal/controller/verify.go:410-427 | Deletes the listed Jobs up to the first that cannot be, and says whether all of them went. |
| `Operator.Cluster.ConfigureRealm` | operator/internal/controller/realm.go:72-158 | The realm's step equals its specification, its Jobs deleted one by one. |
| `Operator.Cluster.Collect` | operator/internal/controller/verify.go:628-680 | Follows the named run, or the run that replaced it, or reports it lost. |
| `Operator.Cluster.StartRun` | operator/internal/controller/verify.go:256-320 | Adopts a run in flight, else replaces the previous runs with one Job; what cannot start is an Error. |
| `Operator.Cluster.Verify` | operator/internal/controller/verify.go:148-214 | The step of the self-test from the status kept. |
| `PlatformDatabase.PlanIsSound` | operator/internal/controller/database.go:85-180 | In every reachable state a plan renders the volume the Postgres runs on, unless it switches, and then onto the claim with a fresh, whole copy of that volume; it starts a copy only when none is kept. |
| `PlatformDatabase.CopyStartsIff` | operator/internal/controller/database.go:85-179 | A copy starts if and only if the databases are bundled, the migration is on, the Postgres is available and off its claim, and no copy onto the claim is kept: one that failed stays in the way, a stale one has gone. |
| `PlatformMigration.DecisionIs` | operator/internal/controller/database.go:85-180 | The decision in every reachable state, by the one copy that may be kept: it switches exactly onto one that succeeded at most 300 seconds ago, copies anew exactly where there is none or a stale one, which is deleted, and cannot be made exactly where the Postgres or its copies cannot be read or the stale one not be deleted. |
| `PlatformMigration.MovesIff` | operator/internal/controller/database.go:156-162 | A pass moves the Postgres if and only if it is bundled, off its claim and to migrate, its copies could be read, one of them succeeded at most 300 seconds ago, and the pass does not end before the switch; the writes that may be lost are counted from when that copy began. |
| `PlatformMigration.CopyBeginsIff` | operator/internal/controller/database.go:238-272 | A pass begins a copy if and only if the Postgres is to move and available, none but a stale copy is kept, no restore is in flight and the pass gets to make the Job; that Job copies the running volume onto the claim. |
| `PlatformDatabase.PassKeeps` | operator/internal/controller/zaentrum_controller.go:146-290 | Wherever a pass breaks off: one copy is kept at the most, an unfinished one has the Postgres on its source, a finished one holds all it saw. |
| `PlatformDatabase.EventKeeps` | operator/internal/controller/database.go:276-295 | The same for Job endings, deletions, database writes, backups, pods and time between passes. |
| `PlatformDatabase.RunKeeps` | operator/internal/controller/database.go:85-180 | The invariant holds in every run, from any state that has it. |
| `PlatformDatabase.SwitchesOnlyOntoACopy` | operator/internal/controller/database.go:156-162 | If any event moves the Postgres it is a pass that moves it onto the claim, there is a successful copy from the running volume that ended at most five minutes before, and everything the database held when that copy began is served afterwards. |
| `PlatformDatabase.OnlyWritesDuringTheCopyAreLost` | operator/internal/controller/database.go:85-234 | Over every run in which no restore ends, with the databases turned external and back at will, the only committed writes the bundled database may lack are those committed between the beginning of the copy it was switched onto and the switch. |
| `PostgresVolumes.Deployment.PostgresVolume` | operator/internal/controller/database.go:318-333 | Where the first data volume keeps its data, an unknown source and no data volume told apart. |
| `PostgresVolumes.Deployment.SwitchPostgres` | operator/internal/controller/database.go:206-234 | Afterwards the Postgres reads back as on the claim, whatever sources the entry had; no other volume changes; it fails exactly where there is no data volume. |
| `Restore.NamesDump` | operator/internal/controller/restore.go:63-73 | A request names a dump if and only if it is the dump, or the dump, a "#" and more of the line. |
| `RestoreResults.DumpIs` | operator/internal/controller/restore.go:52 | A dump's name, character by character. |
| `RestoreResults.PlanIs` | operator/internal/controller/restore.go:98-129 | A restore in flight goes on whatever is asked; a new request is refused if and only if the databases are external or it names no dump, left while a copy runs, and taken up otherwise. |
| `RestoreResults.StoppingIs` | operator/internal/controller/restore.go:159-204 | Waiting goes on exactly while a stopped client may have a pod, a backup may run or the claim is unread, or an earlier restore Job could not be deleted; the end is Refused exactly without a claim or a Job to make, Failed exactly where making it fails, and Running exactly with that Job made. |
| `RestoreResults.RunningIs` | operator/internal/controller/restore.go:205-250 | The result is Succeeded if and only if the Job is there, read and complete, Refused if and only if it failed and says so, Failed if and only if it is gone or failed otherwise; only a success deletes realm runs. |
| `RestoreResults.ResultReachesStatus` | operator/internal/controller/zaentrum_controller.go:237-319 | In each whole pass that completes, what the Job has come to is the result in status, and in no other pass does it change. |
| `RestoreResults.BadRequestIsRefused` | operator/internal/controller/restore.go:102-118 | A pass that completes answers a new request that names no dump, or meets external databases, with Refused, and makes and touches no restore Job. |
| `RestoreResults.StopsExactlyForARestore` | operator/internal/controller/zaentrum_controller.go:154-185 | After a pass that gets through its apply the clients of bundled databases are at zero and the rendered backups held if and only if a restore was in flight or could start; every other Deployment has the spec's replicas. |
| `RestoreResults.BrokenPassNotes` | operator/internal/controller/zaentrum_controller.go:148-236 | A pass that breaks off by the end of its apply leaves status as it was but for its decision about the restore, and writes that exactly where it got past the certificate and the write comes through. |
| `RestoreResults.CountsTheJobs` | operator/internal/controller/restore.go:98-204 | In every pass, wherever it breaks off and whatever is lost, the count of restore Jobs goes up exactly where one is made and starts over exactly where status takes up another request. |
| `PlatformRestore.PassKeeps` | operator/internal/controller/zaentrum_controller.go:154-247 | A pass that writes its status keeps: an unfinished restore Job is the one status runs, the clients it stopped are down and scaled to zero, no backup is scheduled or running beside a quiet one, one Job is counted at the most. |
| `PlatformRestore.RestoresRunAlone` | operator/internal/controller/restore.go:98-252 | In every run in which no pass finds a restore in flight with external databases: one restore Job at the most is unfinished, no client it stopped has a pod, no backup runs beside it unless its schedule outlived the pass that began it, and no request gets a second Job. |
| `PlatformRestore.PassesRenderTheDump` | operator/internal/controller/restore.go:98-129 | While a restore Job is unfinished every pass renders its dump, whatever the annotation says meanwhile. |
| `PlatformRestore.StartsWithAllDown` | operator/internal/controller/restore.go:159-204 | A restore Job begins only when no client the pass renders has a pod and no backup runs; backups can still start after that pass if and only if they were turned off and their CronJob could be neither pruned nor removed. |
| `PlatformRestore.BackupMeetsRestoreIff` | operator/internal/controller/backup.go:175-187 | Beside the restore Job a pass has begun a scheduled backup comes to run if and only if the schedule of backups turned off was neither pruned nor removed by that pass. |
| `PlatformRestore.BackupAppearsIff` | operator/internal/controller/backup.go:189-205 | Between passes a backup comes to run if and only if a schedule starts one or someone makes such a Job by hand: the list asks for no owner. |
| `PlatformRestore.AnsweredOnce` | operator/internal/controller/restore.go:98-129 | A request with a result starts nothing more, however long the annotation stays and whatever writes are lost. |
| `LostRestores.StatusWriteDecides` | operator/internal/controller/zaentrum_controller.go:317-319 | The restore Job a pass starts is followed by status if and only if the pass writes its status; either way its clients are down then. |
| `LostRestores.ClientMeetsRestoreIff` | operator/internal/controller/restore.go:98-129 | One pass later a client's pod runs beside that Job, unfinished still, if and only if this pass scales the client up: the write was lost and nothing is asked any more that can start, or the databases are external now. |
| `LostRestores.RestoreCutShortIff` | operator/internal/controller/restore.go:160-204 | One pass later that Job is deleted while it runs, and a second one made, if and only if the write was lost and this pass gets to start a restore, one asked for still or one that status was waiting to start: the exact deletions and creation included. |
| `LostRestores.LostWriteShows` | operator/internal/controller/restore.go:134-204 | Inputs on which both come about: any cluster at rest, without a pod, that is asked for a restore by a pass losing its status write alone. |
| `LostRestores.ExternalMeetsClientIff` | operator/internal/controller/restore.go:63-73 | While a restore Job that status follows is unfinished, a pass lets a client it stopped back in beside it if and only if the databases are external in that pass, which gets to apply that client with replicas; the Job goes on either way. |
| `LostRestores.DroppedClientIff` | operator/internal/controller/restore.go:159-164 | A client that the pass starting a restore renders no longer is not waited for: a pod of it runs beside the Job if and only if one did before, or it could not be pruned and starts one. |
| `BackupReport.Zaentrum.ReportBackups` | operator/internal/controller/backup.go:64-127 | In every branch the restore's status stays as it is; the Job named is the newest, the last success and failure are the latest of what they were and what the listed runs say, the dumps those of the report that is published. |
| `BackupReport.LatestEndIsLatest` | operator/internal/controller/backup.go:100-126 | That time is never earlier than before nor than any run of that outcome, and is one of these. |
| `BackupReport.PublishesLastReadable` | operator/internal/controller/backup.go:111-122 | The report published is that of the last run, in the list's order, that improves on the last success and can be read; nothing new is published only if there is none. |
| `BackupReport.LatestIsPublishedIff` | operator/internal/controller/backup.go:111-122 | The latest success is the run whose report is published if and only if its report can be read; otherwise what is published, if anything, is that of one listed before it that ended earlier. |
| `BackupReport.UnreadableIsNamed` | operator/internal/controller/backup.go:111-122 | The inputs that fail: any run that succeeds later than any known and whose report cannot be read becomes the last success, and nothing is published. |
| `BackupReport.NeverReadAgain` | operator/internal/controller/backup.go:112 | In any later list, whatever else it holds, a run that ended no later than the last success known is not read. |
| `BackupReport.OlderDumpStaysIff` | operator/internal/controller/backup.go:100-127 | Over every run of passes, whatever lists they find and whatever can be read by then: the last success and the dump beside it stay as they are if and only if no list holds a later success. |
| `PlatformExclusion.PlanApart` | operator/internal/controller/database.go:121-179 | While a pass's plan does not copy, every copy of the running volume has failed, and a restore in flight never lets it switch. |
| `PlatformExclusion.PassApart` | operator/internal/controller/zaentrum_controller.go:146-159 | With the migration left as it is, a pass keeps restores and copies apart and, during a restore, the Postgres where it is. |
| `PlatformExclusion.RestoresAndCopiesStayApart` | operator/internal/controller/restore.go:113-129 | In every run with the migration and the claim fixed, in either mode of the databases, no state has both an unfinished copy and a restore in flight. |
| `PlatformExclusion.RestoreJobsMeetNoCopyJobs` | operator/internal/controller/restore.go:113-129 | In the same runs, where passes write their status and none finds a restore in flight with external databases, an unfinished restore Job never meets an unfinished copy Job. |
| `PlatformExclusion.RestoreMeetsCopyIffMigrationOff` | operator/internal/controller/database.go:121-131 | Beside an unfinished copy a pass takes up a restore if and only if the databases are bundled, the migration is off in that pass and a new request names a dump: turning it off mid-copy hides the copy. |
| `PlatformInstall.NewInstallHolds` | operator/internal/controller/zaentrum_controller.go:110-145 | A new install satisfies every invariant the runs below start from. |
| `PlatformInstall.FromANewInstall` | operator/internal/controller/zaentrum_controller.go:110-326 | In every run from a new install, the settings fixed, status written and no restore found in flight with external databases: one unfinished copy, restore, realm run and verification run at the most, no restore beside a copy and no realm run beside a verification run, no pod of a stopped client beside a restore, and no committed write lost but those made during the copy switched to. |
| `PlatformRuns.RealmKeeps` | operator/internal/controller/realm.go:72-158 | A realm run begins only with Keycloak up, nothing holding it back and no verification running; one is kept at the most; a pass that reports none pending leaves none in flight. |
| `PlatformRuns.RealmNotRepeated` | operator/internal/controller/realm.go:89-118 | After a run of the same realm another begins only where that one failed at least ten minutes before. |
| `PlatformRuns.RestoredRealmRunsAgain` | operator/internal/controller/restore.go:140-156 | After a restore that succeeds the realm is due for a run again. |
| `PlatformRuns.DumpStopsBoth` | operator/internal/controller/realm.go:266-283 | Under a dump, the zero replicas alone make Keycloak unavailable and the platform not ready. |
| `PlatformRuns.RunsBeginAlone` | operator/internal/controller/zaentrum_controller.go:299-315 | With bundled databases neither a realm run nor a verification run begins in a pass with a restore in flight before or after it — nor in the pass that ends one — or with an unfinished copy. |
| `PlatformRuns.RealmAndVerificationStayApart` | operator/internal/controller/realm.go:130-138 | In every run with identity and verification fixed, bundled databases or external, a realm run and a verification run are never unfinished together. |
| `PlatformRuns.OneVerificationAtATime` | operator/internal/controller/verify.go:278-301 | In every run of the whole platform, with any pass breaking off anywhere and any status write lost: one verification Job at the most is kept, and none is deleted unfinished. |
| `PlatformRealm.LatestIs` | operator/internal/controller/realm.go:89-118 | Another run is due if and only if none is kept, or the last one made has finished and was for another fingerprint or failed at least 600 seconds ago. |
| `PlatformRealm.DueAfterOne` | operator/internal/controller/realm.go:103 | With one run kept: if and only if that one has finished, and its fingerprint differs or it failed at least 600 seconds ago; a corrected realm never waits. |
| `PlatformRealm.ConfigureIs` | operator/internal/controller/realm.go:72-158 | The realm is pending exactly while its runs cannot be listed, one is under way, or one is due on a Keycloak that is up; earlier runs are deleted exactly where one is due and nothing holds it back, and the Job made is for the rendered fingerprint. |
| `PlatformRealm.RealmBeginsIff` | operator/internal/controller/realm.go:72-158 | In every state and either mode: a pass begins a realm run if and only if it gets to the realm's step, copies nothing, has no restore in flight after its step and no verification named as running, Keycloak runs all its replicas, and the run is due by `PlatformRealm.Due` and can be made. |
| `PlatformRealm.BundledDueIff` | operator/internal/controller/zaentrum_controller.go:299-306 | With bundled databases that is: no restore in flight nor asked for that can start, Keycloak up at the spec's replicas, and the run due on the Jobs as they are. |
| `PlatformRealm.BeginsInEndingPassIff` | operator/internal/controller/restore.go:63-73 | In a pass that finds a restore in flight a realm run begins if and only if the databases are external in that pass, its step ends the restore, and a run is due then. |
| `PlatformRealm.BeginsInEndingPassShows` | operator/internal/controller/restore.go:134-156 | Inputs on which one does: the restore's Job has succeeded and all goes well for a pass with external databases. |
| `LostRuns.StatusWriteNamesTheRun` | operator/internal/controller/zaentrum_controller.go:308-319 | The verification run a pass begins is named by status if and only if the pass writes its status; either way it begins beside no realm run. |
| `LostRuns.UnnamedMeetsRealmIff` | operator/internal/controller/realm.go:72-158 | Beside a verification run that status does not name, in either mode of the databases, a pass begins a realm run if and only if it gets to the realm's step, neither a copy nor a restore is in flight then, Keycloak is up and the run is due and can start; the verification run goes on. |
| `LostRuns.RealmMeetsVerificationIff` | operator/internal/controller/realm.go:130-138 | One pass after the one that began a verification run a realm run stands beside it if and only if the first lost its status write and the second gets to begin a realm run. |
| `LostRuns.LostWriteShows` | operator/internal/controller/realm.go:89-158 | Inputs on which it does: any platform at rest with its realm in step whose first verification begins in a pass losing its status write, and another realm rendered next. |
| `VerificationRuns.StepKeepsOneRun` | operator/internal/controller/verify.go:278-301 | From any status a pass may have read: a run in flight stays untouched and unaccompanied, and a status that comes to name it says what its own Job says. |
| `VerificationRuns.OneRunAtATime` | operator/internal/controller/verify.go:256-320 | The same in every run of passes from arbitrary stale statuses. |
| `VerificationRuns.RunInFlightIsLeftAlone` | operator/internal/controller/verify.go:287-301 | Until it ends by itself, a run in flight is neither deleted nor replaced, and no Job is made. |
| `VerificationRuns.StartTidies` | operator/internal/controller/verify.go:256-320 | A pass that takes up what is due starts one named Job or answers with Error, and either answers both the platform and the request. |
| `VerificationRuns.TidyThroughout` | operator/internal/controller/verify.go:628-680 | With status kept, status names the only run in flight in every run. |
| `VerificationRuns.OneMoreAtTheMost` | operator/internal/controller/verify.go:176-214 | While the same is asked, whatever the verdicts: one more Job at the most, and none any more once the platform and the request are answered. |
| `VerificationRuns.PendingIsTakenUp` | operator/internal/controller/verify.go:176-209 | What was asked during a run is not dropped: by the second Ready pass after the run has ended it is settled, started or answered with Error. |
| `PlatformVerification.PassIsAStep` | operator/internal/controller/zaentrum_controller.go:237-319 | A whole pass is one step of the self-test, on a table whose verification Jobs the rest of the pass has left as they were, or leaves the self-test alone. |
| `VerificationResults.CollectIs` | operator/internal/controller/verify.go:628-680 | The run that status names gets its verdict exactly once it has finished and can be read; where it is gone, the run that replaced it is told of with its own fingerprint and request, and Error without one; what cannot be read changes nothing. |
| `VerificationResults.StepIs` | operator/internal/controller/verify.go:148-214 | What is asked is taken up if and only if the platform is Ready and the request or the platform has no answer: by following a run under way, else by a run of its own if and only if all goes well for one, else with Error; the exact Job, status and deletions. |
| `VerificationResults.DisabledIs` | operator/internal/controller/verify.go:155-175 | Turned off, it is Skipped, and the Jobs of a run in flight are deleted. |
| `VerificationResults.BeginsIff` | operator/internal/controller/verify.go:176-320 | A whole pass begins a verification run if and only if it finds the platform Ready — the Postgres and every Deployment up with all its replicas and not stalled, no copy, no restore and no realm run in flight or due — and the self-test idle, asked and able to start. |
| `VerificationResults.VerdictReachesStatus` | operator/internal/controller/verify.go:640-680 | In each whole pass that completes, the verdict of the named run is in status once it has finished and can be read, and in no other pass does it change. |
| `PlatformVerification.OneMoreAtTheMost` | operator/internal/controller/verify.go:176-214 | Over every run of the whole platform in which the same is asked and status written: one more verification Job of its own at the most, and none once the platform and the request are answered. |
| `PlatformVerification.PendingIsTakenUp` | operator/internal/controller/verify.go:176-209 | Over the whole platform: what was asked during a verification run is, by the second pass that finds the platform Ready after the run has ended, settled, started as exactly one named Job, or answered with Error. |
| `Report.ParseReport` | operator/internal/controller/verify.go:850-883 | Reads a report if and only if its size, version, counts, names and statuses are all in order. |
| `Report.ParsesIff` | operator/internal/controller/verify.go:854-882 | In order means: at most 65536 bytes, format 1, no negative count, every check named and its status one of the four words; each word becomes its status. |
| `Report.SumNeverExceeds` | operator/internal/controller/verify.go:960 | The 32-bit sum of the counts may wrap around but never exceeds what they add up to. |
| `Report.SumWraps` | operator/internal/controller/verify.go:960 | It is the true sum modulo 2 to the 32, as a signed number. |
| `Report.TrustedIff` | operator/internal/controller/verify.go:959-962 | The report's own counts are published if and only if their sum, so wrapped, covers the list, and they do not hide a listed failure. |
| `Report.Verification.FillChecks` | operator/internal/controller/verify.go:945-977 | The published counts add up to at least the checks listed, and show a failure if one is listed; the report's own counts are published exactly where they account for the list. |
| `Report.Verification.Judge` | operator/internal/controller/verify.go:893-938 | With a readable report the verdict is Failed if and only if a listed check says fail, or the report counts one and its counts are trusted; otherwise Passed exactly with exit 0, and Error for all else. |
| `Report.KeepChecks` | operator/internal/controller/verify.go:981-1006 | The kept checks are an in-order subsequence of exactly the smaller of the two lengths, the rest is counted, and none left out outranks one kept: failures over warnings over the rest, earlier over later. |
| `Report.GraverAreKept` | operator/internal/controller/verify.go:985-1006 | No failure is left out for anything milder, no warning for what is neither, and of equals none for a later one. |
| `Report.FirstAreBest` | operator/internal/controller/verify.go:996-1004 | Sorting positions by rank and re-sorting the first of them gives just that subsequence. |
| `KillSwitch.VPNPolicy` | operator/internal/addon/vpn.go:141-170 | The policy is rendered if and only if a rendered workload assigns its pods to the VPN, under the reserved name, with the selector of those pods. |
| `KillSwitch.PolicyIs` | operator/internal/addon/vpn.go:119-170 | It selects a pod if and only if that is labelled with the name of the addon and for the VPN, is named after the addon, and lets these pods reach exactly the cluster's networks. |
| `KillSwitch.Violations` | operator/internal/addon/guardrails.go:186-235 | No refusal if and only if every object is of an allowed kind, named, unreserved, rendered once, rightly labelled for the VPN and without a fault of its own, and the primary Service is rendered and serves port 80. |
| `KillSwitch.AllowedIff` | operator/internal/addon/guardrails.go:186-235 | That is, in the object's own fields: which kinds, names, labels, keys and ports a render may have. |
| `KillSwitch.PrimaryViolations` | operator/internal/addon/guardrails.go:589-605 | The first Service of the primary name decides. |
| `KillSwitch.DecorateSelects` | operator/internal/addon/guardrails.go:648-684 | Whatever labels the chart wrote, the policy's selector takes the decorated pod template if and only if the workload assigns its pods to the VPN. |
| `KillSwitch.ApplyOrder` | operator/internal/addon/guardrails.go:119-129 | Sorts in place, by kind, stable. |
| `KillSwitch.PolicyRanksFirst` | operator/internal/addon/guardrails.go:43-52 | A NetworkPolicy ranks before every workload. |
| `KillSwitch.RankIs` | operator/internal/addon/guardrails.go:43-52 | The place of each kind in the order. |
| `Sorting.SortsStably` | operator/internal/addon/guardrails.go:128 | The order is sorted, a permutation, and leaves each rank's elements in their order. |
| `Sorting.OnlyOneStableOrder` | operator/internal/addon/guardrails.go:128 | No other order is sorted and stable. |
| `KillSwitchRuns.RenderInOrder` | operator/internal/controller/zaentrumaddon_controller.go:387-432 | In what is applied the kill switch precedes every workload on the VPN, is the only policy, and is there if and only if there is such a workload. |
| `KillSwitchRuns.EventKeeps` | operator/internal/controller/zaentrumaddon_controller.go:927-983 | Each apply, failure, Job replacement, list and deletion keeps the kill switch over every running pod and every workload that may start one. |
| `KillSwitchRuns.NoPodWithoutItsKillSwitch` | operator/internal/controller/zaentrumaddon_controller.go:927-998 | After every step of every run, with pods coming and going between any two steps, a pod on the VPN that has not stopped has its NetworkPolicy. |
| `KillSwitchRuns.FromANewAddon` | operator/internal/controller/zaentrumaddon_controller.go:927-998 | The same for every run of an addon that starts with nothing in the cluster. |
| `KillSwitchRuns.PodsReachTheClusterAlone` | operator/internal/addon/vpn.go:129-170 | Over every run from a new addon, every policy of its in the cluster is the kill switch in full, and a pod running on the VPN is selected by one whose only peers are the cluster's networks as a pass had them. |
| `KillSwitchRuns.OnlyRetiredWorkloadsEscape` | operator/internal/controller/zaentrumaddon_controller.go:952-956 | After any run, a pod that starts without the switch starts at a workload the last whole apply dropped or took off the VPN, and only while no other pod on the VPN runs. |
| `KillSwitchEscape.PrunedAheadIff` | operator/internal/controller/zaentrumaddon_controller.go:957-983 | A prune that reaches the switch leaves a workload on the VPN standing without it if and only if the pods were listed, none was running, the deletion came through and the workload is not ahead of it in the stale list; a pod that then starts there escapes. |
| `KillSwitchEscape.DroppedWorkloadCanEscape` | operator/internal/controller/zaentrumaddon_controller.go:957-983 | Whatever chart the guardrails let through replaces an addon whose workload was on the VPN: once it is applied, the prune comes to where that workload stands without the switch if and only if no pod on the VPN is running when listed, the list and the deletion coming through. |
| `KillSwitchPass.Cluster.Apply` | operator/internal/controller/zaentrumaddon_controller.go:927-950 | The apply loop is a run of those steps that stops at the first error. |
| `KillSwitchPass.Cluster.Prune` | operator/internal/controller/zaentrumaddon_controller.go:957-998 | The prune loop is too; it deletes just the stale keys, holds the switch exactly while a pod on the VPN runs, and says so. |
| `ValuesSecrets.Vault.CollectValuesSecrets` | operator/internal/controller/zaentrumaddon_controller.go:146-176 | Deletes exactly the collectable Secrets listed up to the first deletion that fails, which it is sure to report, and says when the next comes due. |
| `ValuesSecrets.FirstDueIsSoonest` | operator/internal/controller/zaentrumaddon_controller.go:266-275 | That delay is the soonest of all Secrets still in their grace, and none if and only if there is none. |
| `ValuesSecrets.Vault.SweepOrphanedValues` | operator/internal/controller/zaentrumaddon_controller.go:184-213 | Deletes exactly the orphaned Secrets listed up to the first deletion that fails, which it is sure to report. |
| `ValuesSecrets.Vault.KeepValues` | operator/internal/controller/zaentrumaddon_controller.go:539-572 | Frees and labels exactly the addon's values and generated Secrets, all of them unless one fails. |
| `ValuesSecrets.Vault.AdoptValues` | operator/internal/controller/zaentrumaddon_controller.go:874-906 | Ties each values Secret to the addon unless it is kept, and lets a kept one go, up to the first that fails. |
| `ValuesSecrets.Vault.GeneratedValues` | operator/internal/controller/zaentrumaddon_controller.go:818-869 | Adds only keys the generated Secret lacks, for every field in need the value generated for it, and changes no stored value; hands out exactly the stored values asked for; it fails exactly where the Secret cannot be read, a value in need cannot be generated or the write of one is refused, and then stores nothing. |
| `ValuesSecretsRuns.CollectedIff` | operator/internal/controller/zaentrumaddon_controller.go:146-176 | A Secret goes if and only if it is reached, labelled for the addon, named as its values and not its generated ones, not read by it, not kept, owned by nothing else and 600 seconds old. |
| `ValuesSecretsRuns.SweptIff` | operator/internal/controller/zaentrumaddon_controller.go:184-213 | A Secret is swept if and only if it is reached, labelled for an addon there is none of, named as its values, not kept, owned by no other thing than addons and 3600 seconds old. |
| `ValuesSecretsRuns.KeptIs` | operator/internal/controller/zaentrumaddon_controller.go:539-572 | Keeping marks exactly the addon's values and generated Secrets, and takes off just the references to it. |
| `ValuesSecretsRuns.AdoptedIs` | operator/internal/controller/zaentrumaddon_controller.go:874-906 | The owners of each Secret after an adoption, reference by reference. |
| `ValuesSecretsRuns.ReferencedSurvives` | operator/internal/controller/zaentrumaddon_controller.go:161-163 | A Secret that its addon names in its values throughout survives every collection and sweep, of any addon, with all its values. |
| `ValuesSecretsRuns.RemovalKeeps` | operator/internal/controller/zaentrumaddon_controller.go:487-509 | A removal that is to keep its values keeps every one of them, and leaves it unowned if and only if nothing but the addon owned it. |
| `ValuesSecretsRuns.KeptForGood` | operator/internal/controller/zaentrumaddon_controller.go:146-213 | A kept, unowned Secret survives every later collection, sweep, adoption, generation, removal and garbage collection, for any addons, unowned and with its values. |
| `ValuesSecretsRuns.RemovalKeepsForGood` | operator/internal/controller/zaentrumaddon_controller.go:482-572 | The two together, also when an addon of the same name is made again. |
| `ValuesSecretsRuns.KeptIsGarbageIffOrphaned` | operator/internal/controller/zaentrumaddon_controller.go:552-563 | A Secret something else owned as well is garbage after the removal that was to keep it if and only if none of those other owners is left. |
| `ValuesSecretsRuns.GeneratingDoesNotOwn` | operator/internal/controller/zaentrumaddon_controller.go:832-845 | An addon made anew generates into the Secret left behind, adding its keys and neither changing a value nor owning it. |
| `ValuesSecretsRuns.GeneratedValuesNeverChange` | operator/internal/controller/zaentrumaddon_controller.go:815-869 | While the Secret is there a stored value never changes, whatever charts, values and addons come. |
| `Generate.CollectGenerated` | operator/internal/addon/generate.go:46-63 | Appends exactly the fields under the node, each once, in whatever order its properties come. |
| `Generate.GeneratedFields` | operator/internal/addon/generate.go:32-44 | Exactly the properties that ask to be generated, nested ones included, in the order of their paths. |
| `Generate.GeneratorAtIff` | operator/internal/addon/generate.go:46-63 | A property asks to be generated if and only if its names lead to it node by node, each name without a dot and not empty. |
| `Generate.PathSplitsBack` | operator/internal/addon/generate.go:50-58 | Every generated path splits back into the property names it was built from. |
| `Generate.PathsAreDistinct` | operator/internal/addon/generate.go:50-58 | Two properties have the same path if and only if they are the same. |
| `Generate.GenerateMissing` | operator/internal/addon/generate.go:68-94 | A value for exactly the fields in need; nothing at all if and only if generating one of them fails; an error for exactly the unknown generators. |
| `Generate.SecondPassGeneratesNothing` | operator/internal/addon/generate.go:68-94 | With the same fields and values nothing is left to generate. |
| `Generate.GeneratedShowsIff` | operator/internal/addon/generate.go:86 | The chart reads the value generated for a field that needed one if and only if the user has nothing at its path and no leaf on the way to it. |
| `Generate.GeneratedButHidden` | operator/internal/addon/generate.go:86 | An empty string or null of the user at the path, or a leaf above it, counts as no value when values are generated and hides the one generated. |
| `Generate.HidingInputs` | operator/internal/addon/values.go:142-156 | One tree for each of the three. |
| `Values.SplitJoin` | operator/internal/addon/values.go:159-167 | Keys without a dot join into a path that splits back into them. |
| `Values.MergePointwise` | operator/internal/addon/values.go:142-156 | At every path: source leaves win, source maps stay maps, elsewhere the destination shows through unless a source leaf cuts it off. |
| `Values.SameEverywhere` | operator/internal/addon/values.go:142-156 | What stands at every path determines the tree, so that the pointwise description is complete. |
| `Values.MergeIsNotAssociative` | operator/internal/addon/values.go:34-51 | Merging sources among themselves first can give another tree: they are folded left to right. |
| `Values.SetPointwise` | operator/internal/addon/values.go:171-181 | What every path reads after one write. |
| `Values.SeededPointwise` | operator/internal/addon/values.go:97-108 | Set in the order of their paths, each generated value ends up at its path unless another goes on from there, and never the other way round. |
| `Values.LessIff` | operator/internal/addon/values.go:103 | The order of the paths: a proper prefix first, else the lower character where they first differ. |
| `Values.LayeredPointwise` | operator/internal/addon/values.go:97-112 | What every path of an addon's values reads: the platform's block alone under its key, the user's leaves over the generated ones. |
| `ValuesInPlace.CopyMap` | operator/internal/addon/values.go:115-139 | A copy equal to the original, made of new maps and slices alone. |
| `ValuesInPlace.MergeInto` | operator/internal/addon/values.go:142-156 | In place, the destination comes to hold the merge; only maps of the destination are written. |
| `ValuesInPlace.SetPath` | operator/internal/addon/values.go:171-181 | In place, the tree comes to hold any value at its path; maps are made where there is none on the way. |
| `ValuesInPlace.GetPath` | operator/internal/addon/values.go:184-196 | Finds the value exactly where there is one. |
| `ValuesInPlace.LayerValues` | operator/internal/addon/values.go:97-112 | The layers, with neither the user's nor the platform's tree written, in maps and slices that are all new: no later write into the result reaches them. |
| `ChartCache.Fetcher.Evict` | operator/internal/addon/fetch.go:415-439 | Ends; what stays fits or is one archive; nothing that goes is newer than what stays, each goes under all its keys, and no more goes than has to. |
| `ChartCache.Fetcher.Store` | operator/internal/addon/fetch.go:396-411 | Afterwards the cache fits its bound, every key holds an archive fetched under it, and it is just what it was with the new archive under its digest and all its aliases, less what had to go; the new one goes only where one stored no earlier stays. |
| `ChartCache.Fetcher.Fetch` | operator/internal/addon/fetch.go:81-111 | A pinned fetch returns only what its digest names, from the cache without the network where it is there; an unpinned one that fails is served the archive last fetched if and only if it is still cached; a download that is returned is stored, and nothing else changes the cache. |
| `ChartCache.Fetcher.CachedRef` | operator/internal/addon/fetch.go:383-394 | Served if and only if the reference is known, young enough or stale allowed, and its archive still cached. |
| `ChartCache.KeysApart` | operator/internal/addon/fetch.go:113-120 | Two charts share a key if and only if they have one reference and, where it is OCI's, one version. |
| `ChartCache.VersionsApart` | operator/internal/addon/fetch.go:115-118 | Two versions of one OCI reference never share a key, whatever characters they hold. |
| `BoundedBody.Body.Read` | operator/internal/addon/fetch.go:232-247 | Each read delivers the next bytes; the end or the break comes only after all that the connection delivers, the refusal only past the bound. |
| `BoundedBody.Body.Drain` | operator/internal/addon/fetch.go:232-247 | For every sequence of buffer sizes what is delivered is a prefix; an end or a break means all that came, a refusal the first ten MiB of more. |
| `BoundedBody.ReadAll` | operator/internal/addon/fetch.go:232-247 | With buffers that hold a byte: the refusal exactly past ten MiB, otherwise the end or the break with all that came; a stream that broke off passes for a whole one if and only if it did so after exactly ten MiB without telling with the last byte, the probe's error being dropped. |
| `ImageDigest.ParsedParts` | operator/internal/digest/resolver.go:128-155 | A parsed registry always looks like a host, and no part keeps a separator. |
| `ImageDigest.ReadsBack` | operator/internal/digest/resolver.go:128-155 | A reference written from a registry, a repository, a tag and a digest, each of the last two perhaps left out, parses back into them; without a registry, into docker.io and them. |
| `ImageDigest.ZaentrumImageIff` | operator/internal/digest/rewrite.go:18-20 | The platform's images are exactly the references that begin with ghcr.io/zaentrum/. |
| `ImageDigest.PinKeepsReference` | operator/internal/digest/resolver.go:185 | A pin reads back as its digest and registry, and as the repository if and only if the last segment of the image's path does not hold two colons. |
| `ImageDigest.TwoTagsLoseTheFirst` | operator/internal/digest/resolver.go:148-153 | The images that fail: with two tags the first is lost from the repository. |
| `ImageDigest.OneColonKeepsRepository` | operator/internal/digest/resolver.go:148-153 | With one colon at the most after the registry it does. |
| `ImageDigest.PinIsStillOurs` | operator/internal/digest/rewrite.go:18-20 | A pinned image of the platform's is one of the platform's still. |
| `ImageDigest.Resolver.Resolve` | operator/internal/digest/resolver.go:159-209 | Returns the pin of the most recent successful lookup, and fails only for an image none has succeeded for. |
| `ImageDigest.ResolutionIs` | operator/internal/digest/resolver.go:159-209 | The registry is asked exactly for an image without a digest that no lookup of the last 60 seconds has answered for; where it cannot answer, the last pin stands. |
| `ImageDigest.Resolver.PinImages` | operator/internal/digest/rewrite.go:27-62 | Each container's field becomes what it resolves to if it is wanted and resolves, and stays as it was otherwise; none fails if and only if all wanted resolve. |
| `ImageDigest.PinningIsIdempotent` | operator/internal/digest/rewrite.go:27-62 | Pinning twice is pinning once. |
| `ImageDigest.PinnedStaysPinned` | operator/internal/digest/rewrite.go:42-45 | Once every wanted image has resolved, no later pass changes a field, whatever the registry says then. |
| `ImageDigest.PinningKeepsReference` | operator/internal/digest/rewrite.go:46-54 | A field newly pinned keeps its registry and, exactly without two colons in the last segment of its path, its repository. |
| `Prune.Pruner.Live` | operator/internal/controller/prune.go:105-131 | Lists exactly the labelled objects of every kind that is rendered or not known to be unserved, and learns which kinds are served. |
| `Prune.Pruner.Prune` | operator/internal/controller/prune.go:99-155 | Removes exactly the stale objects that could be listed and removed; a dry run removes none; a failure stops nothing else, and none is reported if and only if there was none. |
| `Prune.OnlyTheStaleGo` | operator/internal/controller/prune.go:161-200 | Nothing else is ever removed or changed. |
| `Prune.StaleIff` | operator/internal/controller/prune.go:161-200 | Stale is what carries the platform's label, is in its namespace and controlled by it, of a kind it prunes, neither kept nor on its way out nor rendered, and not the Postgres. |
| `Prune.PassLeavesNothingStale` | operator/internal/controller/prune.go:99-200 | After a pass whose lists and removals succeed, every object of a prunable kind that is the platform's is rendered, kept, on its way out or the Postgres; another pass with the same render removes nothing. |
| `Prune.SkippingIsListing` | operator/internal/controller/prune.go:108-111 | While the memory of unserved kinds is truthful, skipping them removes just what listing them would. |
| `Prune.MemoryStaysTruthful` | operator/internal/controller/prune.go:204-223 | It stays truthful in every run in which each pass that renders a kind reaches its prune and can list that kind. |
| `Prune.ForgetIsLearning` | operator/internal/controller/prune.go:212-223 | What the runs remember is what the prune's own method learns. |
| `Prune.MissedIffRemembered` | operator/internal/controller/prune.go:204-209 | Where it is wrong, a stale object is missed if and only if its kind is not rendered and was remembered within ten minutes. |
| `Prune.WrongMemoryIff` | operator/internal/controller/prune.go:99-223 | How it becomes wrong: a kind found unserved, then served and rendered; a later pass leaves the object it renders no longer if and only if the pass that rendered it did not reach its prune and the ten minutes are not over. |

## Left out

- Helm rendering, the platform's chart, schema validation, YAML and JSON decoding: a render is given by what the pass reads of it.
- HTTP, registries, token exchange, the dial guard, TLS certificates, random values: they are the answers a pass is given.
- SHA-256: fingerprints and digests are opaque; that a digest names one archive is a parameter of the chart cache.
- Condition texts, messages, phases, events, logs, start times of runs, and the status fields nothing decides by.
- Caches, watches, leader election and concurrent passes.
- `self.go`, `openshift.go`, `tls.go`, the release channel: readings of one branch each; where one of them ends a pass, the pass breaks off there.
- Trimming of whitespace around annotations and report lines: both are taken as trimmed.
- Names the API server makes up: they are given with each answer, one that is taken failing the creation.
- Job annotations other than those the operator reads back, and the hook annotations it strips.
- Deployments without selector labels, which a restore does not wait for.
- The order in which the platform's prune removes, which only its message shows; namespaces of cluster-scoped objects.
- KillSwitch.Violations: takes the refusals of what an object itself holds (its namespace, metadata, Secret type, Service, claim and pod specs) as a count given with the object; each of them is one branch.
- Collisions with objects of others and the addon's other prunable objects: the kill switch rests on neither.
- Charts' own Secrets, which the reserved name prefix keeps apart from the values Secrets.
- The values an addon reads from its ConfigMaps, and the folding of its sources, but for the order it must have.
- Redacting and clipping of the checks' names and details.
- The form of a chart reference: references are taken as validated.
- PlatformDatabase.OnlyWritesDuringTheCopyAreLost: says nothing of runs in which a restore ends, since a restore puts an older database back on purpose.
- PlatformRestore.RestoresRunAlone: is about runs whose passes write their status, keep the same clients and find no restore in flight with external databases; `LostRestores` says exactly what each of these is needed for.
- PlatformRuns.RealmAndVerificationStayApart: counts runs that are not being deleted; a run deleted after a restore may still be ending.
- KillSwitchRuns.NoPodWithoutItsKillSwitch: does not follow pods that an older ReplicaSet of a workload taken off the VPN might still start.
- ValuesInPlace.SetPath: goes down the tree by recursion where the code loops.
- ValuesSecrets.Vault.SweepOrphanedValues: sweeps one namespace where the code lists all of them; which addons exist is asked in each Secret's own, and all that one namespace does to another is end the sweep where a deletion fails.
- KillSwitch.ApplyOrder: the library's sort is a function here; its result is written back in place.
- ChartCache.Fetcher.Store: of archives stored in one instant the code evicts whichever its map yields first, so the one just stored is sure to stay only where the clock has moved on since the last store.
- PlatformVerification.PendingIsTakenUp: has the pass make no other Job under the name of the run that status names; the API server makes names unique.

# Fleet agent: delivery, policy, inventory, network — a verified model

The system manages Windows PCs from one server: an admin creates jobs, the server hands them to the agent
on each PC over a connection that may drop at any moment, and the agent reports back. This project models
the parts of it where a mistake costs something - a shutdown carried out twice, a result lost, a PC cut off
from its network - and proves what those parts promise, for every input and every run.

* **Command delivery.** `Commands` is the wire vocabulary (`Basics` has what every module uses). `JobQueue` is the server's leased, prioritised
  queue as a value, one function per SQL statement; `Deployer` is the code that drives it, as a class proved
  against it. `AgentProcess` is the agent as a transition system in which every critical section and every
  file write is an event, so a crash can fall between any two of them; `CommandWorker` is the agent's code,
  statement by statement, whose log is a run of that system. `Delivery` puts server, agents and lossy
  channels together with pumps and sweeps as single steps; `DeliveryInterleaved` takes pumps and sweeps
  apart, down to single database calls acting on stale snapshots, and restarts the server between any two.
* **The agent's stores.** `Compaction` is the in-place compaction both lists share, `CompletedStore` the
  bounded dedup memory refined to an unbounded log, `PendingStore` the outbox refined to a map.
  `DedupLifetime` runs the agent against that file, so that forgetting a job is a matter of hours and of
  other jobs; `ScriptWindow` is a run through the one gap left.
* **Policy.** `PolicyMatching` is the shared matcher and the decision each side takes, `PolicyEngine` the
  server's pass over processes, `PolicyReplication` the versioned push with every read, write, save and
  delivery as its own event.
* **Inventory.** `SoftwareIdentity`, `Versions` and `CommandLine` are the shared rules on text,
  `SoftwareInventory` the reconciliation of snapshots, `UninstallPlan` the uninstall tiers and their gates.
* **Networks.** `WakeOnLan` is the CIDR arithmetic of server and dashboard (section 3.1 of RFC 4632,
  section 3.2.1.3 of RFC 1122), `NetworkMode` the enable-confirm-disable reconciliation.

Time, randomness, the outcome of a send, of a handler, of a download, of a status read and of an adapter
call are parameters or free choices. `dafny verify dfyconfig.toml` checks the whole project.

Five things turned out not to hold of the code as it stands. Each is stated with its exact condition:

* A finished row can return to the queue when pumps and sweeps interleave, because the release and the
  requeue carry no guard on the row's current status. At any point of any run it can if and only if such an
  update of it is outstanding - a pump holds a claim on it, or a sweep saw it expire and has a retry left -
  and none is ever decided on a finished row (`DeliveryInterleaved.FinishedReturnsIff`, `FinishedForGood`,
  with a six-step run in `ReviveWitness`).
* Equal policy versions do not imply equal policies before the first bump, if the database already held
  rules: until then nothing is sent (`PolicyReplication.SameVersionSamePolicy`, `NothingBeforeTheFirstBump`,
  `SeedIsNotPushed`).
* Agent and server can disagree on a file's extension when the server is not a Windows machine, exactly on
  paths with a backslash after the last dot (`PolicyMatching.AgreementIff`).
* The newest available version of a group is stuck at the first one when that has no digit
  (`Versions.NewestAvailable`, `StuckAtFirst`).
* Network reconciliation can cut the PC off. Some adapter is enabled after every single change if an adapter
  of the desired mode was found and its status read, or if one that is enabled could not be read and is
  therefore left alone; in every other case, when the calls succeed and no adapter is still starting from an
  earlier call, none is enabled at the end (`NetworkMode.Machine.Reconcile`; `FailedReadLosesThePath` is the
  case of a wanted adapter that could not be read).

`deployFile` also leaves a window between removing its checkpoint and recording its result;
`AgentProcess.ScriptAtMostOnce` and `DedupLifetime.SecondLaunch` name it as the only way, short of the dedup
file dropping the job, in which a script is launched again, and `ScriptWindow.LaunchedTwice` is a run in
which it is.

## Model

| member | source | states |
|---|---|---|
| `DeliveryInterleaved.DestructiveAtMostOnce` | server/deploy.go:103-186 | In every run with crashes, losses, expiries and freely interleaved pumps and sweeps, a destructive command is sent to a PC at most once and its handler starts there at most once |
| `DeliveryInterleaved.OneRunningPerPC` | server/db.go:1304-1351 | In every reachable state of the fine interleaving, a PC has at most one running row |
| `DeliveryInterleaved.CancelledIsFinal` | server/db.go:1077-1087 | Once cancelled, a row never changes again, under every interleaving |
| `DeliveryInterleaved.FinishedReturnsIff` | server/db.go:1165-1185 | At any point of any run, some continuation returns a finished, not cancelled row to the queue if and only if a claim on it is held or an expiry of it with a retry left was seen and not yet carried out |
| `DeliveryInterleaved.FinishedForGood` | server/db.go:1165-1185 | In every run, a finished row with nothing outstanding stays finished with nothing outstanding: no claim or requeue is decided on a finished row |
| `DeliveryInterleaved.OutstandingCanReturn` | server/deploy.go:194-202 | An outstanding update on a finished, not cancelled row can be carried out at once and makes it pending |
| `DeliveryInterleaved.TerminalRevivedIff` | server/db.go:1165-1185 | One step returns a finished row to the queue if and only if it carries out a release or a requeue of that row |
| `DeliveryInterleaved.RestartServerStep` | server/deploy.go:103-121 | A server restart that loses every claim and snapshot keeps the dispatch-token invariant |
| `DeliveryInterleaved.ReviveWitness` | server/deploy.go:111-117 | A run in which that happens: expiry between a claim and its failed send, then the release |
| `DeliveryInterleaved.InvStep` | server/deploy.go:99-228 | Every step keeps the dispatch-token invariant: pending, held by one pump, or sent |
| `DeliveryInterleaved.SweepRowStep` | server/deploy.go:160-203 | However stale its snapshot, the lease sweep changes one row only and never requeues a destructive command |
| `Delivery.AttemptFence` | server/db.go:1165-1185 | Every attempt number in a frame, a report, or anywhere in an agent's memory or files is at most the row's retry count, and less while the row is pending |
| `Delivery.StaleResultIgnored` | server/hub.go:569-596 | A result for a pending row or a superseded attempt leaves the whole server state unchanged |
| `Delivery.SendBudget` | server/deploy.go:188-203 | Each (job, PC) is sent at most max_retry + 1 times, each time with a fresh attempt, and its lease expires at most that often |
| `Delivery.EveryRetryIsUsed` | server/deploy.go:188-203 | No retry is lost: while a row waits or runs every attempt so far was sent exactly once, and a row given up was destructive and sent once, or was sent max(max_retry, 0) + 1 times |
| `Delivery.StoredOutcomeIsGenuine` | server/hub.go:569-596 | In every run, a row that ended as success or error did so on the PC for that very attempt: an agent event decided that outcome for that job, PC and attempt number |
| `Delivery.StoredWasReported` | server/hub.go:577-577 | Every stored outcome but expiry was received in a report of that job, PC, outcome and the row's own attempt |
| `Delivery.ReportsAreDecided` | agent/ack.go:117-129 | Every report in an agent's memory or files or on its way was decided by an earlier event of an agent |
| `Delivery.TerminalIsFinal` | server/deploy.go:160-228 | With each sweep one step, finished rows stay finished, retry counts never fall, cancelled rows are frozen, and a done job has no row in the queue |
| `Delivery.ResultsAreDurable` | agent/ack.go:117-129 | At every point of every run a job in the dedup store has its result in the outbox, or the server has processed one |
| `Delivery.InvStep` | server/deploy.go:99-228 | Every step keeps the cross-machine invariant, and server rows only evolve forward |
| `Delivery.RunEvolves` | server/db.go:1165-1185 | Between any two points of a run, rows evolve forward and the send history only grows |
| `JobQueue.PumpKeeps` | server/deploy.go:103-121 | A pump keeps all queue invariants, touches only its own PC's rows, and leaves no trace if the send fails |
| `JobQueue.ReleaseRestores` | server/deploy.go:111-117 | Claiming and then releasing a row restores the queue exactly |
| `JobQueue.SnapshotFresh` | server/db.go:1355-1375 | The expired rows a sweep sees belong to different PCs and describe their rows |
| `JobQueue.SweepRunKeeps` | server/deploy.go:160-208 | Pumping inside the sweep loop, each pump with its own clock and connection, never invalidates a row still to be processed, and the whole sweep keeps all invariants |
| `JobQueue.PumpRunKeeps` | server/deploy.go:74-76 | Pumping targets one after the other keeps all invariants and the rows of other PCs |
| `JobQueue.SweepStepKeeps` | server/deploy.go:188-206 | One turn of the sweep keeps all invariants and touches one PC |
| `JobQueue.LapseAllKeeps` | server/deploy.go:213-228 | The pending sweep keeps all invariants and touches only the rows it saw |
| `JobQueue.AcceptKeeps` | server/hub.go:569-596 | A result for a sent attempt keeps all invariants, and changes nothing if the row is pending or has moved on |
| `JobQueue.AcceptOutcome` | server/hub.go:577-577 | A report changes its own row only, and only on the current attempt of a row not cancelled: to its own outcome, lease cleared, counts kept |
| `JobQueue.CancelKeeps` | server/db.go:1077-1087 | Cancelling keeps all invariants and leaves no row of the job in the queue |
| `JobQueue.CreateKeeps` | server/deploy.go:36-76 | Inserting a new job keeps all invariants and leaves every existing row as it is |
| `Deployer.Deployer.SelectNext` | server/db.go:1326-1331 | Selects a pending row whose job has not expired, none of the others being of higher priority, or of equal priority and older; nothing only when there is none |
| `Deployer.Deployer.AcquireNextJob` | server/db.go:1304-1351 | On a PC without a running row, sets exactly that row running with the lease, its counts kept; otherwise changes nothing |
| `Deployer.Deployer.PumpAgent` | server/deploy.go:103-121 | Is a pump step; a frame that goes out carries the row's retry count and the job's kind and expiry, and one that does not leaves every row as it was but for a lease |
| `Deployer.Deployer.UpdateDeployResult` | server/db.go:1165-1185 | Is the fenced update; reports whether a row matched |
| `Deployer.Deployer.UpdateJobStatus` | server/db.go:1278-1289 | Marks the job done exactly when none of its rows is pending or running |
| `Deployer.Deployer.GetExpiredLeaseResults` | server/db.go:1355-1375 | Returns every running row past its lease exactly once, with its counts |
| `Deployer.Deployer.SweepExpiredLeases` | server/deploy.go:160-208 | Runs the sweep relation over a snapshot of the state it started in, clock and hub read afresh for each pump |
| `Deployer.Deployer.SweepOne` | server/deploy.go:166-206 | A row still as the query saw it ends Failed exactly when its job is destructive or its retry count has reached its limit, and otherwise is back in the queue or running as the next attempt |
| `Deployer.Deployer.UpdateExpired` | server/deploy.go:174-198 | The row update of that turn, on the row's fields |
| `Deployer.Deployer.GetExpiredPendingResults` | server/db.go:1379-1401 | Returns every pending row past its job's expiry exactly once |
| `Deployer.Deployer.SweepExpiredPending` | server/deploy.go:213-228 | Every row that was pending past its job's expiry becomes expired, every other row stays as it is |
| `Deployer.Deployer.CreateJob` | server/deploy.go:36-97 | Creates nothing without targets; otherwise inserts one row per target, is a pump of each target in order, and marks the job dispatched exactly when no target is pending; keeps all invariants |
| `Deployer.Deployer.PumpTargets` | server/deploy.go:74-76 | Is a chain of pump steps, one per target in order |
| `Deployer.Deployer.CancelDeployJob` | server/db.go:1077-1087 | Every pending or running row of the job becomes cancelled, every other row stays as it is |
| `Deployer.Deployer.HandleExecResult` | server/hub.go:569-596 | Stores the reported outcome in the reporting PC's row if that is not cancelled and at that attempt, leaves every other row alone, and acks whenever a job is named |
| `AgentProcess.HandlerAtMostOnce` | agent/cmdqueue.go:67-142 | Between two starts of one job's handler the process crashed or the dedup store dropped the job, under every interleaving of deliveries with the worker |
| `AgentProcess.ActiveCountsCopies` | agent/cmdqueue.go:84-142 | The copies of a job queued or with the worker are exactly its membership in cmdActive |
| `AgentProcess.ScriptAtMostOnce` | agent/executor.go:139-150 | A checkpointed script is launched again only after its dedup entry was dropped, or after a crash between clearing the checkpoint and recording the result |
| `DedupLifetime.SecondStart` | agent/cmddedup.go:74-135 | Between two starts of one job's handler the process crashed, or the job's result was recorded and then 24 hours passed or 256 other jobs were recorded |
| `DedupLifetime.SecondLaunch` | agent/executor.go:139-150 | Between two launches of one job's script, crashes included, its result was recorded and outlived in that sense, or a crash fell into the open window |
| `DedupLifetime.ForgottenIsOutlived` | agent/cmddedup.go:74-135 | A job absent at one point and forgotten at a later one was recorded in between and outlived |
| `DedupLifetime.FileIsInMemory` | agent/cmddedup.go:89-135 | Every job the file holds is in the agent's dedup memory at every point of a run |
| `ScriptWindow.LaunchedTwice` | agent/executor.go:147-150 | A run without forgetting that launches a script twice, through the open window |
| `AgentProcess.KilledScriptIsRecorded` | agent/selfupdate.go:84-121 | A checkpoint left by a crash becomes a dedup entry before the process accepts commands, however often startup is interrupted |
| `AgentProcess.InvStep` | agent/cmdqueue.go:53-142 | Every event keeps the agent's invariant; in particular one checkpoint slot is enough |
| `AgentProcess.HeldStep` | agent/cmdqueue.go:67-142 | A handler start spends a copy that was received |
| `AgentProcess.KnownStep` | agent/executor.go:165-181 | The agent never reports an attempt number it was not sent |
| `AgentProcess.CrashSafeStep` | agent/ack.go:117-129 | With the outbox written first, no event separates a finished job from its result |
| `AgentProcess.ResultsAreDecided` | agent/executor.go:165-181 | Every result the agent ever has or sends was decided by an earlier event, with that outcome and for that command: the handler's end, a failed download, a late command, or startup's inference |
| `AgentProcess.DecidedIsHad` | agent/cmdqueue.go:134-141 | A decided result is with the worker, outcome, job and attempt unchanged |
| `AgentProcess.SendingMeans` | agent/ack.go:83-129 | What is sent when, and that an ack takes exactly its own job out of the outbox |
| `AgentProcess.RunningScriptIsGuarded` | agent/executor.go:145-148 | While a script runs, its own command is in the checkpoint |
| `CommandWorker.CommandWorker.SubmitCommand` | agent/cmdqueue.go:67-110 | Wherever the worker is, resends a stored result, ignores a duplicate, and otherwise enters the queue and the in-flight set together or not at all |
| `CommandWorker.CommandWorker.ClaimInFlight` | agent/cmdqueue.go:84-91 | Claims the in-flight entry exactly when it was free |
| `CommandWorker.CommandWorker.Offer` | agent/cmdqueue.go:101-108 | Enqueues while there is room; a full queue drops the command and its claim |
| `CommandWorker.CommandWorker.ProcessNext` | agent/cmdqueue.go:53-62 | Takes the oldest command, treats it, and releases its in-flight entry |
| `CommandWorker.CommandWorker.ProcessCommand` | agent/cmdqueue.go:121-142 | A stored result is sent again and nothing runs; a late command reports expired and does not run; a failed download reports error; otherwise the handler runs once and its own outcome is reported - each under the command's job, PC and attempt, in both stores before it is sent |
| `CommandWorker.TreatMeans` | agent/cmdqueue.go:121-164 | The same of the treatment as a value |
| `CommandWorker.CommandWorker.RunCommandHandler` | agent/cmdqueue.go:146-164 | Hands each kind of command to its handler, with that handler's effect and report |
| `CommandWorker.CommandWorker.DeployFile` | agent/executor.go:95-151 | Download, checkpoint, run, clear, send: one effect and one stored result, no effect if the download failed |
| `CommandWorker.CommandWorker.SendDurableResult` | agent/ack.go:117-129 | Outbox, then dedup store, then one send |
| `CommandWorker.CommandWorker.CheckSelfUpdateCheckpoint` | agent/selfupdate.go:84-121 | A leftover checkpoint becomes a stored result and is removed, none changes nothing; nothing goes out, since there is no connection yet |
| `CommandWorker.CommandWorker.Restart` | agent/main.go:190-191 | From a crash at any point, the next start is ready with an empty queue and no checkpoint |
| `CompletedStore.RememberedIff` | agent/cmddedup.go:74-135 | After every sequence of records and lookups on an increasing clock, a job's last result is found exactly while it is younger than 24 hours and fewer than 256 other jobs were recorded since |
| `CompletedStore.StoreIsRecentLog` | agent/cmddedup.go:74-113 | The file is exactly the young-enough, within-cap end of an unbounded log of last results |
| `CompletedStore.StoreBounds` | agent/cmddedup.go:74-113 | Job ids in the file are unique, and there are at most 256 |
| `CompletedStore.SortByAgeSorts` | agent/cmddedup.go:74-87 | The age sort is ordered and keeps every entry |
| `CompletedStore.CompletedJobs.PruneCompletedJobs` | agent/cmddedup.go:74-87 | The loop and the cap compute the pruned list |
| `CompletedStore.CompletedJobs.RecordCompletedResult` | agent/cmddedup.go:89-113 | Prune, compact in place, append, prune again |
| `CompletedStore.CompletedJobs.CompletedJobResult` | agent/cmddedup.go:117-135 | Finds the job in the pruned list and leaves the file pruned |
| `Compaction.CompactInPlace` | agent/ack.go:64-81 | Writing over the list while reading it leaves exactly the other jobs' entries, in order |
| `PendingStore.PendingResults.PersistPendingResult` | agent/ack.go:64-81 | The outbox as a map gains this result; the list stays one entry per job, newest last |
| `PendingStore.PendingResults.ClearPendingResult` | agent/ack.go:83-102 | The outbox as a map loses exactly this job |
| `PendingStore.PendingResults.ReplayPendingResults` | agent/ack.go:109-115 | Sends every waiting message once, in order |
| `PendingStore.SendDurableResult` | agent/ack.go:117-129 | Both files gain the result before it is sent |
| `PolicyMatching.AgentAgreesWithServer` | agent/policycache.go:257-292 | With equal rules, apps and group, the agent skips or decides exactly as the server, whatever order either scans the markers in, for every path in one location bucket |
| `PolicyMatching.AgreementIff` | server/policy.go:130-150 | The two agree for every policy on a path if and only if the server runs on Windows or no backslash follows the last dot |
| `PolicyMatching.DisagreementWitness` | server/policy.go:141-150 | On any other path, a policy under which the server kills and the agent logs |
| `PolicyMatching.Evaluate` | shared/policy.go:117-138 | The winner agrees with the context in every dimension it asks about, none that does asks about more, or as many with a lower id, and the default is taken exactly when no rule agrees |
| `PolicyMatching.ScoreMeans` | shared/policy.go:143-182 | There is a score exactly when the rule agrees in all six dimensions it asks about, case ignored in three, and it is their number |
| `PolicyMatching.BestIsChosen` | shared/policy.go:117-138 | The scan takes that decision on every rule list |
| `PolicyMatching.AgentJudges` | agent/policycache.go:257-278 | A process is judged exactly when it runs from a watched place or is flagged, by its own group, status, category, extension and place, among the enabled rules |
| `PolicyMatching.OrderIndependent` | shared/policy.go:117-138 | With unique ids the decision does not depend on the order of the rules |
| `PolicyMatching.BestDecides` | shared/policy.go:117-138 | The scan over the rules decides as promised, on every rule list |
| `PolicyMatching.ClassifyDeterminedIff` | shared/policy.go:97-112 | The location bucket is independent of map order if and only if the path is empty, on another drive, or hits at most one marker |
| `PolicyMatching.ClassifyMeans` | shared/policy.go:97-112 | Another drive is "usb"; otherwise each bucket is exactly the paths with its folder in them |
| `PolicyMatching.ExtensionOfName` | agent/policycache.go:269-269 | The extension is what follows the last dot of the last element, in lower case |
| `PolicyMatching.NoExtension` | agent/policycache.go:269-269 | A last element without a dot has none |
| `PolicyMatching.EnabledMeans` | agent/policycache.go:284-292 | Exactly the enabled rules are kept |
| `PolicyMatching.EnabledTwice` | agent/policycache.go:284-292 | Filtering the pushed, already enabled rules again changes nothing |
| `PolicyEngine.EvaluateProcesses` | server/policy.go:120-164 | Acts on exactly the judged processes whose decision is not a log entry, with the group loaded lazily |
| `PolicyEngine.DueMeans` | server/policy.go:130-163 | A process is acted on exactly when it is judged to something other than a log entry |
| `PolicyEngine.AgentActsAlike` | agent/policycache.go:257-278 | Agent and server act on the same processes in the same way and order, wherever their decisions agree |
| `PolicyEngine.PolicyEngine.RelevantApps` | server/policy.go:53-73 | What is returned was read less than the cache's lifetime plus the delay between read and store before the call, and afresh when the cache is stale |
| `PolicyEngine.StaleByAtMost` | server/policy.go:53-73 | The same bound however many refreshes store, in whatever order |
| `PolicyReplication.SameVersionSamePolicy` | agent/policycache.go:162-200 | In every interleaving of writes, bumps, reads, pushes, losses, saves and crashes, an agent at the server's version with no write awaiting its bump holds the server's rules and apps, if and only if a bump ever happened or the database started empty |
| `PolicyReplication.DriftIsDetected` | server/hub.go:359-381 | No cache is ahead of the server, every cache that differs from a settled policy gets a reply to its version check, and one at the server's version gets none |
| `PolicyReplication.ReplyIsBuilt` | server/hub.go:406-427 | A reply built without interruption carries the server's version and policy |
| `PolicyReplication.ReplyRepairs` | agent/policycache.go:145-200 | Once it arrives the agent has the server's version and policy, and after the save across a restart too |
| `PolicyReplication.NothingBeforeTheFirstBump` | server/hub.go:373-375 | In every run, until the first bump nothing is pushed or on its way and no cache holds anything |
| `PolicyReplication.SeedIsNotPushed` | server/hub.go:373-375 | A state in which rules from before the first bump are in force on the server only, and the version check gets no reply |
| `PolicyReplication.InvStep` | server/api.go:133-139 | Every event keeps: a version travels only with what was current at it, unless something changed since |
| `PolicyReplication.NormalizeRelevantApps` | agent/policycache.go:53-62 | Every key is lowercased and every entry comes from the input |
| `PolicyReplication.NormalizedLower` | agent/policycache.go:53-62 | On what the server sends, normalizing changes nothing |
| `CommandLine.TokenizeUndoesQuoting` | shared/software.go:201-231 | Tokenizing the space-joined quoted tokens returns the same list, for every token list without a quote character |
| `CommandLine.FailsIffOddQuotes` | shared/software.go:224-226 | Tokenizing fails exactly on an odd number of quotes |
| `CommandLine.NothingLost` | shared/software.go:206-223 | The arguments together are the input without quotes and unquoted blanks, in order |
| `CommandLine.WordsSplit` | shared/software.go:211-218 | Plain words come out as written, whether spaces or tabs separate them |
| `CommandLine.RequotingIsStable` | shared/software.go:201-231 | Whatever was split and quoted again splits the same way |
| `CommandLine.TokenizeCommandLine` | shared/software.go:201-231 | The loop computes the fold of the scanner over the text |
| `CommandLine.QuotedInvocationPasses` | shared/software.go:174-191 | Every argument list over a safe program, quoted, passes the gate unchanged |
| `CommandLine.PassedIsStable` | shared/software.go:174-191 | What the gate accepts is safe, and quoting it again is accepted as the same invocation |
| `CommandLine.ProgramPassesIff` | shared/software.go:145-190 | A program passes exactly when it is a drive-rooted path to an .exe whose file name is none of the seventeen shell and script hosts, in any case |
| `CommandLine.BareProgramRefused` | shared/software.go:183-185 | A program without a directory never passes |
| `Versions.CompareVersions` | shared/software.go:87-113 | Comparable exactly when both texts have a digit; the result is lexicographic order on zero-padded components |
| `Versions.ExtractVersionParts` | shared/software.go:115-132 | The loop yields the values of the digit runs, clamped to 64 bits |
| `Versions.OrderIsTotal` | shared/software.go:87-113 | Any two versions are ordered, and both ways exactly when all padded components agree |
| `Versions.OrderIsTransitive` | shared/software.go:87-113 | The order is transitive, strictly if either step is strict |
| `Versions.ComparableIff` | shared/software.go:115-119 | A text has components exactly when it has a digit |
| `Versions.PaddingIsIgnored` | shared/software.go:77-81 | Appending ".0" changes nothing in the order, nor does a digitless prefix before a separator |
| `Versions.NumeralMeans` | shared/software.go:121-130 | Reading a decimal numeral gives the number back |
| `Versions.DottedParts` | shared/software.go:115-132 | A dotted version has its numbers as components, one beyond 64 bits counting as the largest |
| `Versions.DottedOrder` | shared/software.go:87-113 | Dotted versions are ordered by the first number that differs |
| `Versions.NewestAvailable` | server/software.go:307-326 | The newest is one of the versions, and bounds every comparable one if and only if the first present is comparable or none is |
| `Versions.NewestOrderIndependent` | server/software.go:307-326 | When all are comparable, two row orders give equal versions |
| `Versions.StuckAtFirst` | server/software.go:320-326 | On "beta" then "1.2" the newest stays "beta" |
| `SoftwareIdentity.NormalizeIsStable` | shared/software.go:36-42 | A normalized product code is valid and its own normal form |
| `SoftwareIdentity.NormalizeFolds` | shared/software.go:36-42 | Two spellings of a valid code normalize alike exactly when they differ in case, surrounding space and braces at most |
| `SoftwareIdentity.NormalizeIgnoresCase` | shared/software.go:36-42 | Case never tells product codes apart, valid or not |
| `SoftwareIdentity.MsiKeys` | shared/software.go:62-67 | An MSI key equals another key exactly when the product codes agree; the namespaces never meet |
| `SoftwareIdentity.OtherKeys` | shared/software.go:68-70 | Other keys agree exactly when folded name and publisher do, or the separator shifts between them |
| `SoftwareIdentity.PlainNamesDoNotShift` | shared/software.go:68-70 | Names without the separator never shift |
| `SoftwareIdentity.KeyIgnoresCase` | shared/software.go:62-71 | Entries that differ only in letter case have one key |
| `SoftwareIdentity.KeyIgnoresSpace` | shared/software.go:62-71 | Nor does white space around name, publisher or product code make another key |
| `SoftwareIdentity.GuidIff` | shared/software.go:31-31 | A code body is valid exactly when it is five groups of hexadecimal digits, 8-4-4-4-12 |
| `SoftwareInventory.InventoryTable.Reconcile` | server/software.go:100-160 | Replaces this agent's rows: last item per key, first-seen kept for surviving keys, other agents untouched |
| `SoftwareInventory.AgentInventory.ReplaceSnapshot` | agent/softwareinventory.go:266-274 | The map holds the last entry per key and nothing else |
| `SoftwareInventory.SidesAgree` | agent/softwareinventory.go:324-351 | After a snapshot, table and map hold the same items under the same keys |
| `SoftwareInventory.HistoryMeans` | server/software.go:94-160 | After any reports of any agents, a row exists exactly when its agent's latest report lists the key, and first-seen is the start of the unbroken stretch of reports listing it |
| `SoftwareInventory.LastOfMeans` | server/software.go:109-142 | The surviving item is the last of its key in the snapshot |
| `UninstallPlan.PlanIsValid` | server/software.go:421-438 | Every classified uninstall passes validateDeployRequest and names what the row names |
| `UninstallPlan.TierIff` | server/software.go:421-438 | A plan exists exactly when a mechanism applies, the product code before the quiet command before winget, and carries what that mechanism needs |
| `UninstallPlan.RequestIff` | server/api.go:53-122 | What each job type but winget must bring to be accepted, exactly |
| `UninstallPlan.WingetRequestIsPlain` | server/api.go:63-74 | A winget request is accepted only for a package id of letters, digits and _ . - + |
| `UninstallPlan.UnknownTypeRefused` | server/api.go:118-120 | Nothing but the seven known job types is accepted |
| `UninstallPlan.StoredPlanIsValid` | server/api.go:93-116 | The same for every row the table ever holds, under the key it is stored by |
| `UninstallPlan.QuietPassesIff` | agent/softwareinventory.go:445-471 | A quiet uninstall planned from one snapshot passes an agent holding another if and only if both agree on the command; the structure gate never stops it |
| `UninstallPlan.QuietFromLatestPasses` | agent/softwareinventory.go:445-471 | Planned from the latest snapshot it always passes, and runs what the row says |
| `UninstallPlan.WingetCommandFields` | server/software.go:432-435 | The winget payload splits into the expected fields with the package id fourth |
| `WakeOnLan.ValidateNetworks` | server/wolpacket.go:76-99 | Accepts exactly the named, aligned profiles with pairwise disjoint address ranges; duplicate and overlap are reported as such |
| `WakeOnLan.MeetIff` | server/wolpacket.go:93-95 | Two blocks share an address exactly when one holds the other's network address |
| `WakeOnLan.SameRangeIff` | server/wolpacket.go:90-92 | Two blocks are one range exactly when address and mask agree |
| `WakeOnLan.BroadcastIsGreatest` | server/wolpacket.go:61-71 | The broadcast is the greatest address of its block, the network address the least |
| `WakeOnLan.PrefixIsRange` | dashboard/app.js:893-896 | Sharing the leading bits is membership of the range |
| `WakeOnLan.CidrBroadcast` | server/wolpacket.go:63-71 | The byte loop computes the dashboard's 32-bit form |
| `WakeOnLan.MasksAgree` | dashboard/app.js:893-893 | The mask dealt out in octets is the shifted 32-bit mask |
| `WakeOnLan.WordRoundTrip` | dashboard/app.js:875-884 | Word and octets convert back and forth without loss |
| `WakeOnLan.ParseSubnetMeans` | server/wolpacket.go:47-59 | A subnet is accepted exactly when it is written with its network address |
| `WakeOnLan.ContainsMeans` | server/wolpacket.go:93-93 | Octet-wise containment is membership of the range |
| `WakeOnLan.FindNetwork` | server/wolpacket.go:104-119 | Returns the first usable profile that holds the address, and says why when there is none |
| `WakeOnLan.LookupMeans` | server/wolpacket.go:104-119 | An answer holds the address; there is none only when no profile does |
| `WakeOnLan.AtMostOneHolds` | server/wolpacket.go:76-119 | In a validated list at most one profile holds any address |
| `WakeOnLan.LookupOrderIndependent` | server/wolpacket.go:104-119 | Reordering a validated list changes no lookup |
| `WakeOnLan.ResolveBroadcast` | server/wolpacket.go:124-130 | Answers exactly when a profile holds the PC, with that block's broadcast |
| `NetworkMode.Operate` | agent/network.go:113-231 | In every run of toggles and of late, repeated or reordered deliveries, with both adapters found, some adapter is enabled after every single change, and the desired mode always names one |
| `NetworkMode.Machine.Reconcile` | agent/network.go:121-231 | Connected after every change if a wanted adapter was read or an enabled one could not be; without failures each adapter ends exactly as mode and readings say, so the machine is connected if and only if that holds; a converged machine sees no action; status ok means the mode was reached, and without failures it is |
| `NetworkMode.Machine.CarryOut` | agent/network.go:164-231 | The same of the acting part: never without an enabled adapter while a path is kept, and without one at the end, failures aside, if none is |
| `NetworkMode.Machine.BringUp` | agent/network.go:166-190 | Enables only what is needed; a confirmation means the adapter is enabled |
| `NetworkMode.Machine.TakeDown` | agent/network.go:194-211 | Disables an adapter only once its replacement is enabled |
| `NetworkMode.Machine.PollUntilEnabled` | agent/network.go:90-98 | True only if the adapter is enabled, and true if it was and one of the three reads succeeds; changes nothing else |
| `NetworkMode.Machine.VerifyFinal` | agent/network.go:213-230 | Reports the adapters seen up; failed exactly when a wanted one is not seen up or none is, ok exactly when besides nothing went wrong |
| `NetworkMode.CombinedModeMeans` | agent/network.go:100-111 | The reported mode names exactly the enabled adapters |
| `NetworkMode.ReadableKeepsIff` | agent/network.go:149-152 | With both adapters read, a path is kept exactly when a wanted adapter was found |
| `NetworkMode.FailedReadLosesThePath` | agent/network.go:133-152 | A connected machine whose wanted adapter exists but could not be read keeps no path |
| `NetworkMode.TransitionIsSetUpdate` | server/commands.go:286-319 | An action is refused exactly when no adapter would be left, and otherwise adds or removes exactly its adapter |

## Left out

- Eventual delivery: a finished command need not end as successful on the server, since a resent result carries its original attempt and a requeue moves the fence on.
- Duplicate target ids of one job: `resolveTargets` does not remove them, and the queue here has one row per (job, PC).
- Database and file errors, the columns output, exit_code, duration_ms and executed_at, and the deletion of agents and jobs.
- Results without an attempt number: the agent here always echoes the one it was sent.
- A job's own status under interleaved creation and results: "dispatched" can be written after "done", so only the row-level statements are made there.
- Which commands are destructive: `IsDestructivePayload` is a flag of the job; its matching of shutdown texts is not modelled.
- A crash in the middle of writing one file: each file write is one step; an unreadable checkpoint file is not modelled.
- Commands that are not serial, a worker not yet started, and what handlers do beyond having an effect and then a result.
- CompletedStore.RememberedIff: needs a strictly increasing clock, because the age sort of the original leaves the order of equal times open.
- PolicyReplication: the agent's device_group, a cache written by another server, and the decoding of messages; device_group edits do not bump the version.
- PolicyMatching.AgentAgreesWithServer: paths that hit several location markers are excluded because the original scans the markers in map order; `ClassifyDeterminedIff` states exactly when that matters.
- PolicyEngine.EvaluateProcesses: the rules are taken as constant during one pass, and what is done with a decision is left out.
- Case folding outside ASCII, and invalid UTF-8.
- SoftwareInventory.InventoryTable.Reconcile: the transaction succeeds; rollback on an error is not modelled.
- UninstallPlan.QuietFromLatestPasses: the last gate, that the program exists on disk, is not modelled.
- Versions.NewestAvailable: only the newest version of an aggregate row; the other aggregate fields would add easy members.
- CIDR, IP and MAC texts: a subnet starts as an address and a prefix or as not parsable; IPv4-mapped IPv6 texts are not told apart.
- NetworkMode.Operate: assumes that the two initial status reads succeed and that nothing but these calls changes an adapter; `NetworkMode.Machine.Reconcile` covers failed reads.
- Login, alerts, metrics, peripheral watchers, logs, the dashboard's user interface and the plugins.

# Continuous-task manager: a verified model

OpenHarmony's background task manager lets applications keep running in the background through
*continuous tasks*. `BgContinuousTaskMgr` holds a table of task records keyed by a string, hands out
task ids and notification ids, tells subscribers what starts and stops, shares notifications between
tasks, writes the table to a JSON file after every change, and keeps a second table of user
authorizations with pending callbacks. Nearly every change runs on one event handler, so a run of
the manager is a sequence of atomic steps.

This project models those steps and proves what holds over whole runs of them.

| file | content |
|---|---|
| `Decimal`, `Labels`, `Modes` | printing and reading of integers, labels and table keys, the order of modes |
| `Json`, `TaskRecord`, `ResourceRecord` | JSON as a value, the two record codecs and their files |
| `Subscribers` | subscribers, the callbacks they are sent, what a subscriber concludes from them |
| `TaskTable` | the manager as a transition system: one specification function per operation, steps, runs |
| `TaskManager` | the manager as a class; its loops and updates in place are proved equal to the specification functions |
| `Invariants`, `Reachability` | the invariant of all reachable states |
| `Mirror`, `Recovery`, `AppStop` | event stream, restart, application-stop signals |
| `ModeChecks`, `Publishing`, `Hearing` | which modes pass, what publishing does, who is told what: in the fields of records and subscribers |
| `StartOutcomes`, `UpdateOutcomes`, `LoopOutcomes`, `StepOutcomes`, `AuthOutcomes` | answer and effect of every operation, in the same terms |
| `Stopping`, `Notifications`, `Removal`, `Reactivation` | cancels by a stop, whose notifications are cancelled, what the loops leave behind, reactivation |
| `Rules`, `Admission`, `Background` | which modes tasks can hold: merging, background admission, replaced modes |
| `BundleCache` | what is cached of the bundles' declarations, and that tasks hold declared modes because of it |
| `Auth`, `AuthProofs`, `AuthManager` | authorization records and callbacks: steps, what holds over runs, the class |
| `Session` | the run theorems, stated of the two classes |
| `Witnesses`, `Leak` | runs that reach what the exact conditions leave possible |

How to read it. An operation `F` on the state is a function in `TaskTable` (or `Auth`); the class
method of the same operation ensures that the abstract state afterwards is `F` of the abstract state
before; the `Outcomes` modules say what `F` does without calling the functions it is made of, in the fields of
records, requests and answers and with the numbers of the interface; the other lemmas speak about `F`, about one
`Step`, or about a whole `Run`. Three kinds of outside
influence are inputs of a step: the order in which an unordered map happens to be walked (`order`), the
answers of the application manager, bundle manager and notification service, and permission checks.
Where a property needs the walk to visit every key once, `IsWalk` says so. What subscribers are told and
what the notification service is asked is kept in the traces `log` and `notes`.

Properties that do not hold of the code in general are stated with the exact condition under which they do, and
with a run from the initial state, or an input, that fails. The requests in those runs pass the checks in front of the
event handler (`Witnesses.ProperRun`).

- The event stream misses the suspension of an audio task that is marked as handled by standby
  (`Mirror.AudioMirrorExact`, `Witnesses.MirrorBreaks`).
- A restart that cannot read the process list leaves the counters of task ids and notification ids at their
  initial values (`Recovery.RestartIdsExact`, `Recovery.RestartNotesExact`, `Witnesses.IdsCollide`), which in the
  end breaks the event stream too (`Witnesses.MirrorNeedsProcessList`), and does not read the authorization file
  (`AuthProofs.RestartRecoversAuth`, `AuthProofs.UnreadableRestartForgets`).
- A restart that cannot read the process list or the foreground applications forgets what an application in the
  background may use (`Background.RestartAdmissionExact`, `Witnesses.RestartForgets`).
- A stopped task that shares its main notification leaves its additional one on the screen
  (`Stopping.StopSubExact`, `Leak.SubNotificationLeaks`).
- A suspension cancels the notifications of the record under the given key even when that record belongs to
  another application and keeps running (`Notifications.SuspendSparesOthersExact`, `Witnesses.SuspendHitsForeign`).
- An update by task id takes the configuration of the caller, not of the task's owner
  (`Admission.UpdateByIdDeclaredExact`, `Witnesses.ForeignUpdateBreaks`).
- A bundle that declares no mode can have audio playback cached, after which its application may use that mode
  (`BundleCache.StartDeclaredExact`, `Witnesses.FallbackBreaks`).
- A legacy update whose ability name contains an underscore can reach a request-object task
  (`Admission.UpdateByKeyCombineExact`, `Witnesses.UnderscoreUpdateReachable`).
- A change of language renames authorization records in memory only (`AuthProofs.StepSyncedExact`,
  `AuthProofs.RenameBreaks`).
- A backup file may hold authorization records under foreign keys (`AuthProofs.RestoreExact`,
  `AuthProofs.ForeignKeyBreaks`).
- A banner whose bundle name contains an underscore cannot be dismissed (`Labels.BannerLabelParse`,
  `Labels.UnderscoreBannerIgnored`).

## Model

| member | source | states |
|---|---|---|
| `Reachability.RunInv` | services/continuous_task/src/bg_continuous_task_mgr.cpp:1390-1419 | In every state any run reaches (starts, updates, stops, suspensions, activations, removals, restarts of every kind): keys equal the keys computed from the records, labels name their application, at most ten request-object tasks share an ability id, subscribers are distinct, and the file agrees with the table on keys, identity and suspend flags. As long as restarts can read the process list, moreover, task ids are distinct and at most the counter, and two tasks share a main notification id only inside one application |
| `Reachability.StepInv` | services/continuous_task/src/bg_continuous_task_mgr.cpp:1437-1481 | Every single step keeps that invariant: the basic part always, the full one unless it is a restart that cannot read the process list |
| `Reachability.RunBounds` | services/continuous_task/src/bg_continuous_task_mgr.cpp:1325-1342 | In every state any run reaches there is at most one legacy task per (uid, ability name, ability id) and at most ten request-object tasks per ability id |
| `Reachability.StartInv` | services/continuous_task/src/bg_continuous_task_mgr.cpp:1390-1419 | A start keeps the invariant whether it is accepted, refused or merged, although the id counter advances before later checks fail |
| `Reachability.SubmitInv` | services/continuous_task/src/bg_continuous_task_mgr.cpp:1437-1481 | The record that enters keeps ids fresh and notifications isolated, also when it takes over another task's notification |
| `Reachability.RestartInv` | services/continuous_task/src/bg_continuous_task_mgr.cpp:369-412 | A restart keeps the basic invariant with and without a process list; with a readable one it keeps the full invariant, since the maxima cover dropped records and the rebuilt counters are good |
| `Reachability.MaximaTableOk` | services/continuous_task/src/bg_continuous_task_mgr.cpp:371-411 | The maximal task id and notification id are good counters for the table they were taken over, in any walk order |
| `Reachability.UpdateByIdInv` | services/continuous_task/src/bg_continuous_task_mgr.cpp:1160-1203 | An update by task id keeps the invariant |
| `Reachability.UpdateByKeyInv` | services/continuous_task/src/bg_continuous_task_mgr.cpp:1205-1260 | A legacy update keeps the invariant, also when it fails half-way without a write |
| `Reachability.AvSessionInv` | services/continuous_task/src/bg_continuous_task_mgr.cpp:2461-2519 | The AVSession notification branch keeps the invariant |
| `Reachability.ProgressInv` | services/continuous_task/src/bg_continuous_task_mgr.cpp:1285-1323 | A data-transfer progress update keeps the invariant |
| `Invariants.LoopInv` | services/continuous_task/src/bg_continuous_task_mgr.cpp:2249-2301 | Every loop over the table keeps the invariant, whatever the walk order |
| `Invariants.ReactivationsOk` | services/continuous_task/src/bg_continuous_task_mgr.cpp:2193-2218 | Through the reactivation loop the remembered notification is always that of an already reactivated task of the same application, so copying it cannot join two applications |
| `Invariants.StopInnerInv` | services/continuous_task/src/bg_continuous_task_mgr.cpp:1857-1910 | Stopping by task id or by ability keeps the invariant |
| `Invariants.SuspendInv` | services/continuous_task/src/bg_continuous_task_mgr.cpp:2059-2159 | Suspending, standby suspending and the stop of an application that does not listen keep the invariant |
| `StepOutcomes.SuspendOutcome` | services/continuous_task/src/bg_continuous_task_mgr.cpp:2098-2159 | What a suspension of a listening application stores, with its reason, announces, writes and withdraws, by standby and otherwise |
| `StepOutcomes.SuspendUnheard` | services/continuous_task/src/bg_continuous_task_mgr.cpp:2071-2083 | Without a listener standby does nothing and any other suspension is a stop |
| `Mirror.RunMirror` | services/continuous_task/src/bg_continuous_task_mgr.cpp:2403-2427 | Mirror refinement: over every run whose restarts can read the process list and in which no audio suspension meets a running task marked as handled by standby, each subscribed system ability that folds its start and stop callbacks holds exactly the set of running task ids a new query would return |
| `Mirror.StepMirror` | services/continuous_task/src/bg_continuous_task_mgr.cpp:3024-3131 | Every single step keeps the mirror |
| `Mirror.AudioMirrorExact` | services/continuous_task/src/bg_continuous_task_mgr.cpp:2577-2612 | The audio loop keeps the mirror if and only if the application does not listen for suspension or has no running, not yet paused audio task marked as handled by standby |
| `Mirror.HazardUnannounced` | services/continuous_task/src/bg_continuous_task_mgr.cpp:2591-2599 | Such a task is suspended in the table, and no system ability is told that it stopped |
| `Witnesses.HazardReachable` | services/continuous_task/src/bg_continuous_task_mgr.cpp:2138-2159 | A run of four steps, the audio service's start among them, with a subscribed system ability that reaches such a task |
| `Witnesses.MirrorBreaks` | services/continuous_task/src/bg_continuous_task_mgr.cpp:2577-2612 | With the audio suspension that follows, the system ability no longer holds the set of running tasks |
| `Witnesses.MirrorNeedsProcessList` | services/continuous_task/src/bg_continuous_task_mgr.cpp:309-312 | A run of starts that pass the front checks, with a restart without a process list after which two tasks share an id; the removal of one breaks the mirror |
| `Mirror.SubscribeMirror` | services/continuous_task/src/bg_continuous_task_mgr.cpp:2316-2341 | A new system ability starts in step with the table; a second subscription only widens flags |
| `StepOutcomes.SubscribeOutcome` | services/continuous_task/src/bg_continuous_task_mgr.cpp:2316-2341 | A known application gets more flags, a known system ability nothing; a new subscriber comes last and reads exactly the running tasks |
| `StepOutcomes.UnsubscribeOutcome` | services/continuous_task/src/bg_continuous_task_mgr.cpp:2355-2384 | An application stays with the flags left to it and leaves with the last, a system ability leaves at once, nobody else is concerned |
| `Mirror.StartMirror` | services/continuous_task/src/bg_continuous_task_mgr.cpp:1437-1481 | A start is announced exactly when a record enters |
| `Subscribers.SystemAbilityHears` | services/continuous_task/src/bg_continuous_task_mgr.cpp:3024-3131 | Each system ability draws exactly one conclusion from each change, whoever else is subscribed |
| `Hearing.NotifyDue` | services/continuous_task/src/bg_continuous_task_mgr.cpp:3024-3131 | Each subscriber gets each callback it is due once and no other: those who follow all tasks, the application that owns the task, and what a cancel reason and the standby mark exclude |
| `Hearing.AudioDue` | services/continuous_task/src/bg_continuous_task_mgr.cpp:2546-2575 | The audio notice is one stop for each application that watches task states |
| `Subscribers.SystemAbilitiesIgnoreAudio` | services/continuous_task/src/bg_continuous_task_mgr.cpp:2546-2575 | The audio notice is sent to applications only and leaves every system ability's view alone |
| `Subscribers.ViewIgnoresAppStop` | services/continuous_task/src/bg_continuous_task_mgr.cpp:3318-3333 | Application-stop messages leave every view of running tasks alone |
| `Subscribers.AppStopTimes` | services/continuous_task/src/bg_continuous_task_mgr.cpp:3328-3332 | The application-stop loop reaches each subscribed system ability exactly once and no application |
| `Recovery.RestartRecovers` | services/continuous_task/src/bg_continuous_task_mgr.cpp:304-318 | Crash consistency: from any state whose file agrees with the table, a restart recovers exactly the tasks whose process is alive, or all of them when the process list cannot be read, each with its identity and suspend flag |
| `Recovery.RunRecovers` | services/continuous_task/src/bg_continuous_task_mgr.cpp:304-318 | The same after any run, so after a crash at any point between two steps |
| `Recovery.RestartIdsExact` | services/continuous_task/src/bg_continuous_task_mgr.cpp:308-312 | After a restart the task-id counter covers the live ids if and only if the process list was readable or there was nothing to restore |
| `StepOutcomes.RestartCounters` | services/continuous_task/src/bg_continuous_task_mgr.cpp:369-412 | After a restart with a process list the counters are exactly the greatest ids of the file, or their first values, and the foreground is what the application manager reports |
| `StepOutcomes.RestoreRoundOutcome` | services/continuous_task/src/bg_continuous_task_mgr.cpp:376-404 | One round of a restart: a dead process takes its record and, when nobody else refers to the main notification, both notifications; a record without one stays; the others are published again |
| `Recovery.UnreadableProcessListRepeatsIds` | services/continuous_task/src/bg_continuous_task_mgr.cpp:309-312 | When the process list was not readable and task 1 was among the restored ones, the next accepted start hands out id 1 again |
| `Recovery.RestartNotesExact` | services/continuous_task/src/bg_continuous_task_mgr.cpp:308-312 | After a restart the notification counter covers the main notification ids in use, and no two applications share one, if and only if the process list was readable or no restored task has a main notification; ids of additional notifications are not counted |
| `Recovery.UnreadableProcessListRepeatsNotes` | services/continuous_task/src/notification_tools.cpp:201-214 | When the process list was not readable and a restored task holds notification id 0, the next notification of any application gets id 0 again |
| `Witnesses.IdsCollide` | services/continuous_task/src/bg_continuous_task_mgr.cpp:309-312 | A run of two starts that pass the front checks with a restart between them, after which tasks of two applications share a task id and a notification id |
| `Recovery.StartedRecord` | services/continuous_task/src/bg_continuous_task_mgr.cpp:1397-1480 | An accepted start adds one record, with the next id, and keeps the identity of every other |
| `AppStop.RunSignals` | services/continuous_task/src/bg_continuous_task_mgr.cpp:3318-3333 | In every state any run reaches: the step that takes an application's task count from positive to zero tells each subscribed system ability exactly once, whichever removal path it is, and while a task is left nobody is told |
| `AppStop.StepSignals` | services/continuous_task/src/bg_continuous_task_mgr.cpp:2249-2301 | The same for one step from any state with distinct subscribers |
| `AppStop.LoopSignals` | services/continuous_task/src/bg_continuous_task_mgr.cpp:2768-2802 | ... for every loop, those that check after each removal and those that check once at the end |
| `AppStop.EverythingSignals` | services/continuous_task/src/bg_continuous_task_mgr.cpp:2703-2718 | ... for the bulk cancellation that collects the applications first |
| `AppStop.StopInnerExact` | services/continuous_task/src/bg_continuous_task_mgr.cpp:1857-1935 | ... for stops by task and by ability, where nobody is told twice however many tasks go |
| `AppStop.SuspendAtSignals` | services/continuous_task/src/bg_continuous_task_mgr.cpp:2098-2159 | A suspension never announces an application stop for an application that has tasks |
| `AppStop.DropAndTellExact` | services/continuous_task/src/bg_continuous_task_mgr.cpp:2885-2908 | One removal followed by the check tells exactly when it removed the last task |
| `Stopping.StopCounted` | services/continuous_task/src/bg_continuous_task_mgr.cpp:1889-1935 | Reference-counted cancel of main notifications: stopping by task or by ability issues a cancel for a (label, id) exactly once when the last task that refers to it goes, and none otherwise, for every label and id |
| `Stopping.StopAtCancels` | services/continuous_task/src/bg_continuous_task_mgr.cpp:1912-1935 | One stop, for every label and id: the main notification is counted as above, and a cancel of the additional kind is issued exactly when the stopped task's additional notification is meant and the last reference to its main one goes with it |
| `StepOutcomes.StopByIdOutcome` | services/continuous_task/src/bg_continuous_task_mgr.cpp:1857-1935 | A stop by id removes that task only, writes, tells each subscriber that is due it once with the reason noted in the record, and answers an error exactly when the last cancel was refused |
| `StepOutcomes.StopNothing` | services/continuous_task/src/bg_continuous_task_mgr.cpp:1857-1887 | A stop that matches nothing answers so and changes nothing |
| `StepOutcomes.StopTaskGone` | services/continuous_task/src/bg_continuous_task_mgr.cpp:1912-1925 | In a series of stops an id that is gone ends it with an error and changes nothing |
| `StepOutcomes.StopByAbilityLeaves` | services/continuous_task/src/bg_continuous_task_mgr.cpp:1889-1910 | A stop by ability that succeeds leaves exactly the tasks with another application, ability name or ability id |
| `StepOutcomes.StopByKeyOutcome` | services/continuous_task/src/bg_continuous_task_mgr.cpp:2044-2056 | A stop by the system removes the task under the key and tells its application that it was frozen |
| `StepOutcomes.StopByTypeLeaves` | services/continuous_task/src/bg_continuous_task_mgr.cpp:2035-2057 | The three kinds of a stop by the system: the data transfers of the application, all its tasks, or the one under the key |
| `StepOutcomes.DumpOutcome` | services/continuous_task/src/bg_continuous_task_mgr.cpp:2719-2728 | A task cancelled by the dump command goes with the reason noted in its record |
| `StepOutcomes.DismissedOutcome` | services/continuous_task/src/bg_continuous_task_mgr.cpp:2731-2802 | A dismissal marks a task that shows nothing; otherwise all tasks that share the notification go, the main notification is withdrawn for each when the additional one was dismissed, and those who are due it are told of a cancel by the user |
| `StepOutcomes.SwitchOutcome` | services/continuous_task/src/bg_continuous_task_mgr.cpp:1390-1394 | An application that is switched off is refused every start, and nothing changes; others are not concerned |
| `Stopping.StopSubExact` | services/continuous_task/src/bg_continuous_task_mgr.cpp:4552-4574 | The additional notification of a stopped task is cancelled once if and only if the task asked by request object, has a main notification, and no other task refers to that; otherwise it is never cancelled |
| `Stopping.StopByContextSubExact` | services/continuous_task/src/bg_continuous_task_mgr.cpp:1889-1910 | The same law for each task when all tasks of an ability are stopped, with the tasks left at that moment and the cancels the service refused before |
| `Stopping.StopEachOkExact` | services/continuous_task/src/bg_continuous_task_mgr.cpp:1903-1909 | A series of stops ends well if and only if the service refuses no last cancel |
| `Stopping.StopSparesSurvivors` | services/continuous_task/src/bg_continuous_task_mgr.cpp:4557-4571 | Whoever is still there after a stop, by task or by ability, has lost neither its main nor its additional notification to it, in any walk order and whatever the service refuses |
| `Stopping.StopByContextRemoves` | services/continuous_task/src/bg_continuous_task_mgr.cpp:1889-1910 | Stopping by ability removes exactly the tasks of that ability in any walk order and leaves the others untouched |
| `Stopping.SubsApart` | services/continuous_task/src/notification_tools.cpp:320-331 | Two live tasks never share an additional notification |
| `Leak.SubNotificationLeaks` | services/continuous_task/src/bg_continuous_task_mgr.cpp:2205-2215 | A run that leaks, of requests and a stop that pass the front checks: after a reactivation copies another task's notification, stopping that task issues no cancel although its additional notification is the last thing posted |
| `Notifications.SuspendSparesOthersExact` | services/continuous_task/src/bg_continuous_task_mgr.cpp:2098-2136 | A suspension that names an application and a key leaves the main and additional notifications of all tasks of other applications alone if and only if the named record belongs to the named application or shows no notification |
| `Witnesses.SuspendHitsForeign` | services/continuous_task/src/bg_continuous_task_mgr.cpp:2124-2133 | A run, whose start passes the front checks, in which a running task of another application loses its notification to a suspension |
| `Notifications.RunSparesOthers` | services/continuous_task/src/bg_continuous_task_mgr.cpp:2249-2301 | In every state any run reaches, the loops that cancel for a whole application without looking for sharing tasks never cancel a main or additional notification of a live task of another application |
| `Notifications.LoopSparesOthers` | services/continuous_task/src/bg_continuous_task_mgr.cpp:2885-2908 | The same from any state that satisfies the basic invariant |
| `Notifications.LabelFindsTask` | services/continuous_task/src/task_notification_subscriber.cpp:153-202 | The label a live task publishes under, parsed with its ability name, gives back the key of exactly that task; so does its additional label, with the sub flag set |
| `Removal.LoopFilter` | services/continuous_task/src/bg_continuous_task_mgr.cpp:2249-2301 | Every loop that erases while it walks is a filter: for every walk order exactly the records it does not select are left, unchanged; LoopOutcomes.LoopLeaves says which those are, in their fields |
| `LoopOutcomes.LoopLeaves` | services/continuous_task/src/bg_continuous_task_mgr.cpp:2249-2301 | Which tasks each removing loop leaves, in the fields of the tasks: those of other applications, modes, notifications, of accounts that are active, of applications rather than system components, or none |
| `LoopOutcomes.LoopOutcome` | services/continuous_task/src/bg_continuous_task_mgr.cpp:2577-2612 | What each loop that hands out no id does, for every walk order: the final record of each task, the main and additional notifications withdrawn, counted for every label and id, and the callbacks, counted for every subscriber and callback, the reason of a removal included |
| `LoopOutcomes.InnerModeCounted` | services/continuous_task/src/bg_continuous_task_mgr.cpp:3367-3387 | When tasks of system components go, a main notification is withdrawn once when its last task goes |
| `LoopOutcomes.LoopPublishes` | services/continuous_task/src/bg_continuous_task_mgr.cpp:4186-4198 | The loops that publish again publish each task that is due once, as the service answers, and touch no other |
| `LoopOutcomes.LoopWrites` | services/continuous_task/src/bg_continuous_task_mgr.cpp:2703-2718 | After a loop the file holds the table as the loop leaves it |
| `Removal.DismissRemovesAll` | services/continuous_task/src/bg_continuous_task_mgr.cpp:2768-2802 | Dismissing a notification leaves no task that refers to it and every task that did not |
| `Removal.UserDismissalRemovesTask` | services/continuous_task/src/task_notification_subscriber.cpp:153-202 | The label of a notification that a live task published leads the parser to exactly that task, and the dismissal removes it |
| `Removal.AudioLoopIs` | services/continuous_task/src/bg_continuous_task_mgr.cpp:2577-2612 | The audio loop treats each audio task of the application exactly once in any walk order: marked when nobody listens, paused the first time, removed the second time; all other records are untouched |
| `Labels.MainLabelRoundTrip` | services/continuous_task/src/notification_tools.cpp:66-80 | Parsing a main label with the ability name yields the table key, sub flag clear, for all names, underscores included |
| `Labels.SubLabelRoundTrip` | services/continuous_task/src/notification_tools.cpp:320-331 | Parsing an additional label yields the request-object key, sub flag set |
| `Labels.StringSplit` | services/continuous_task/src/task_notification_subscriber.cpp:142-151 | The splitting loop yields the pieces between separators, without an empty last piece |
| `Labels.BannerLabelParse` | services/continuous_task/src/task_notification_subscriber.cpp:159-166 | A dismissed banner reaches the authorization table if and only if the bundle name is one token; otherwise it is ignored |
| `Labels.UnderscoreBannerIgnored` | services/continuous_task/src/task_notification_subscriber.cpp:159-166 | The banner of bundle a_b is ignored when dismissed |
| `Labels.BannerLabelInjective` | services/continuous_task/src/notification_tools.cpp:484-494 | The banner label determines user, clone index and bundle name, for all names |
| `Labels.LegacyAndRequestKeysDiffer` | services/continuous_task/src/bg_continuous_task_mgr.cpp:1398-1401 | With underscore-free ability names a legacy key is never a request-object key |
| `Labels.UnderscoreKeysCanCoincide` | services/continuous_task/src/bg_continuous_task_mgr.cpp:1398-1401 | With an underscore in the name the two kinds of key can be equal |
| `Labels.LabelsNameTheirUid` | services/continuous_task/src/notification_tools.cpp:66-80 | A label names its application, and only additional labels have six tokens |
| `Labels.LabelNamesOneUid` | services/continuous_task/src/notification_tools.cpp:66-80 | A label names one application and is of one kind |
| `Reactivation.ActivateExact` | services/continuous_task/src/bg_continuous_task_mgr.cpp:2183-2219 | For every walk order the reactivation loop leaves no suspended task of the application, leaves running tasks and other applications untouched, and each system ability hears one start, the application itself one activation, for each task that was suspended and for no other |
| `Reactivation.ReactivationsProgress` | services/continuous_task/src/bg_continuous_task_mgr.cpp:2196-2218 | After any part of the walk exactly the visited suspended tasks of the application are awake, doing the same work; all other records are as they were |
| `Reactivation.ActiveTimes` | services/continuous_task/src/bg_continuous_task_mgr.cpp:3106-3131 | One activation event is exactly one start callback for each system ability and one activation callback for the owner |
| `StepOutcomes.ReactivatedOutcome` | services/continuous_task/src/bg_continuous_task_mgr.cpp:2196-2218 | One turn of the reactivation loop: a task without a notification gets none, one whose id comes up for the first time is published again and remembered, any other takes over what is remembered |
| `StepOutcomes.ActiveOutcome` | services/continuous_task/src/bg_continuous_task_mgr.cpp:2161-2181 | Standby activates listening applications only |
| `Publishing.RefreshIs` | services/continuous_task/src/bg_continuous_task_mgr.cpp:2236-2247 | Record, id counter, requests and answer after republishing, for each outcome of composing and publishing: nothing for a suspended task, a live view and a second notification for data transfer with other modes |
| `Publishing.SendLiveIs` | services/continuous_task/src/bg_continuous_task_mgr.cpp:3538-3588 | A refused second notification withdraws the first, and each refused attempt has taken its id |
| `Publishing.SendIs` | services/continuous_task/src/notification_tools.cpp:169-217 | An accepted notification is under the own label and the old or the next id; an empty text withdraws what was shown |
| `Publishing.RefreshVisible` | services/continuous_task/src/bg_continuous_task_mgr.cpp:2236-2247 | After a refresh that succeeds, the notifications of the record are on the screen if those it had were |
| `Background.RunAdmitted` | services/continuous_task/src/bg_continuous_task_mgr.cpp:1344-1388 | Background admission over whole runs: without updates, without starts of the application while it is reported in the foreground, and with restarts that can read both lists, its request-object tasks use, whenever it is in the background, only the remembered modes and audio playback |
| `Background.RunFromAdmitted` | services/continuous_task/src/bg_continuous_task_mgr.cpp:1344-1388 | The general form, restarts of every kind, updates and reported foreground included: from any state admission holds as long as each step admits it, which StepAdmittedExact shows to be necessary |
| `Background.StepAdmittedExact` | services/continuous_task/src/bg_continuous_task_mgr.cpp:1344-1388 | A step keeps background admission if and only if its guards say so: a start is stopped by a guard or asks for no more than is remembered, an update does not replace modes by others, a restart can read both lists or finds audio playback only; every other step always does |
| `Background.RunSinceMove` | services/continuous_task/src/bg_continuous_task_mgr.cpp:2929-2969 | After an application has moved to the background, and until it moves again or the manager restarts, its request-object tasks use only modes that its tasks used when it moved, and audio playback, whatever came before the move and in every continuation without updates and without starts while it is reported in the foreground |
| `Background.SinceMove` | services/continuous_task/src/bg_continuous_task_mgr.cpp:2929-2969 | The general form for any continuation whose steps admit it |
| `Background.UnaidedAdmits` | services/continuous_task/src/bg_continuous_task_mgr.cpp:1374-1388 | The admission check alone suffices: a step admits the application unless it is an update, a start by the application while it is reported in the foreground, or a restart that cannot read a list |
| `Background.UnaidedRun` | services/continuous_task/src/bg_continuous_task_mgr.cpp:1344-1388 | Over a run: steps without such an exception all admit |
| `Background.RestartAdmissionExact` | services/continuous_task/src/bg_continuous_task_mgr.cpp:304-356 | After a restart background admission holds if and only if the process list and the foreground list were both readable or the restored request-object tasks of the application use audio playback only |
| `Witnesses.RestartForgets` | services/continuous_task/src/bg_continuous_task_mgr.cpp:320-327 | A run, whose start passes the front checks, in which a restart without a foreground list breaks it |
| `Background.StartAdmissionExact` | services/continuous_task/src/bg_continuous_task_mgr.cpp:1374-1388 | A start breaks background admission if and only if no guard stops it although it asks for more than the remembered modes and audio playback |
| `Background.UpdateAdmissionExact` | services/continuous_task/src/bg_continuous_task_mgr.cpp:1110-1260 | An update breaks background admission if and only if it replaces the modes of a task of the application by modes outside the remembered ones |
| `Background.RebuildAgrees` | services/continuous_task/src/bg_continuous_task_mgr.cpp:333-355 | The restart rebuild and the move to the background compute the same set of modes per application, the union over its tasks, in any map order |
| `Background.CollectIs` | services/continuous_task/src/bg_continuous_task_mgr.cpp:2954-2965 | The modes collected are exactly those some task of the application has |
| `StepOutcomes.AppStateOutcome` | services/continuous_task/src/bg_continuous_task_mgr.cpp:2929-2969 | A move changes the foreground set and the remembered modes of that application only; to the background exactly the modes in use are remembered |
| `Admission.AcceptsExact` | services/continuous_task/src/bg_continuous_task_mgr.cpp:1390-1481 | A start is accepted if and only if the guards pass: the switch, pre-launch, admission and count, the key, every mode permitted and covered, merging, and publishing |
| `StartOutcomes.StartOutcome` | services/continuous_task/src/bg_continuous_task_mgr.cpp:1390-1481 | The whole answer and effect of a start: which guard gives which error, in their order, that the id is handed out from the key on, and otherwise the record stored with its notification, announced and written, or sharing the notification of the task it names |
| `StartOutcomes.RecordAsked` | services/continuous_task/src/bg_continuous_task_mgr.cpp:1024-1042 | Everything the caller says of itself and of the task is in the record; the mode that stands for several is the first that is not data transfer; the record shows no notification and is running |
| `StartOutcomes.AllowedIs` | services/continuous_task/src/bg_continuous_task_mgr.cpp:1344-1388 | The errors of the admission check: pre-launch, ten request-object tasks of the ability, or an application in the background that asks for a mode that is neither remembered nor audio playback |
| `StartOutcomes.CheckMergeIs` | services/continuous_task/src/bg_continuous_task_mgr.cpp:1483-1559 | Which error refuses a merging request, and when it is granted: combined on both sides, a notification to share, the same modes and submodes as sets |
| `ModeChecks.CheckModesJudged` | services/continuous_task/src/bg_continuous_task_mgr.cpp:712-755 | No mode is refused if and only if each is permitted (Wi-Fi interaction for system applications, task keeping and special scenario by permission) and declared or covered by the combined mode; otherwise the first that is not determines the error, a missing permission before a missing declaration |
| `ModeChecks.StartModesJudged` | services/continuous_task/src/bg_continuous_task_mgr.cpp:1437-1453 | The same for a start, with the checks of system components and of the old interface |
| `Admission.StartExact` | services/continuous_task/src/bg_continuous_task_mgr.cpp:1437-1481 | A start keeps a rule about modes if and only if a guard stops it or the rule permits what is asked for |
| `Admission.UpdateByIdExact` | services/continuous_task/src/bg_continuous_task_mgr.cpp:1160-1203 | An update by id keeps a rule if and only if it does not replace the modes or the rule permits the new ones |
| `Admission.UpdateByKeyExact` | services/continuous_task/src/bg_continuous_task_mgr.cpp:1205-1260 | The same for a legacy update |
| `UpdateOutcomes.UpdateByIdOutcome` | services/continuous_task/src/bg_continuous_task_mgr.cpp:1110-1203 | The whole answer and effect of an update by id: which check gives which error, in their order; otherwise mode, modes and submodes are those of the request unless the task is combined, the want agent is replaced when there is a new one, nothing else of the work and no other task changes, and an accepted update is announced and written |
| `UpdateOutcomes.UpdateByIdMissing` | services/continuous_task/src/bg_continuous_task_mgr.cpp:1164-1175 | The errors when no request-object task has the id |
| `UpdateOutcomes.UpdateByKeyOutcome` | services/continuous_task/src/bg_continuous_task_mgr.cpp:1205-1260 | The same for a legacy update: submodes go before the mode check unless Bluetooth stays, then modes and batch flag are stored whatever the service answers, and the notification is left alone when data transfer stays |
| `UpdateOutcomes.ProgressOutcome` | services/continuous_task/src/bg_continuous_task_mgr.cpp:1285-1323 | A progress update stores the progress and publishes; it is written when the service accepts, and nobody is told |
| `UpdateOutcomes.AvSessionOutcome` | services/continuous_task/src/bg_continuous_task_mgr.cpp:2461-2519 | What a change of the AVSession does to the first task of the application: an undetected one gets the flag; withdrawn, a task with its submode keeps quiet and one that only plays audio publishes; otherwise an empty text withdraws the notification of a task that transfers no data |
| `UpdateOutcomes.AvSessionPosts` | services/continuous_task/src/bg_continuous_task_mgr.cpp:2487-2500 | A notification is posted exactly when the AVSession is withdrawn, the task is a detected one that only plays audio, without the submode, and the service accepts; then once and under the own label |
| `Admission.MergedStart` | services/continuous_task/src/bg_continuous_task_mgr.cpp:1515-1559 | An accepted merging start names a unique live task of the same application, both combined, with the same mode and submode sets; it takes over that task's label and id, publishes nothing and allocates no id |
| `Admission.MatchMergeIs` | services/continuous_task/src/bg_continuous_task_mgr.cpp:1520-1557 | The merge loop accepts a target if and only if that task satisfies all conditions, independently of map order |
| `Admission.StartOrderFree` | services/continuous_task/src/bg_continuous_task_mgr.cpp:1390-1419 | The result of a start does not depend on the map order |
| `Admission.RunCombined` | services/continuous_task/src/bg_continuous_task_mgr.cpp:1483-1513 | With underscore-free ability names, no combined request-object task ever holds the data-transfer or the special-scenario mode, over all runs, with restarts of every kind |
| `BundleCache.RunDeclared` | services/continuous_task/src/bg_continuous_task_mgr.cpp:666-755 | Declared modes over all runs, with restarts of every kind and the cache of bundle information filled and dropped as it happens: when updates by id come from the owner, every mode of every new-interface task is declared by its bundle, or covered by the combined audio and recording mode, or is audio playback of an ability for which a component has asked while its bundle declares nothing |
| `BundleCache.StartDeclaredExact` | services/continuous_task/src/bg_continuous_task_mgr.cpp:1390-1453 | A start keeps the rule that modes are declared if and only if a guard stops it, it is no new-interface request, asks for no mode, or the cache after its own entry holds no such fallback for its ability |
| `BundleCache.OwnerUpdateExact` | services/continuous_task/src/bg_continuous_task_mgr.cpp:1177-1186 | An owner's accepted update asks for declared modes if and only if it asks for none or the cache holds no such fallback |
| `BundleCache.CheckedExact` | services/continuous_task/src/bg_continuous_task_mgr.cpp:712-755 | Modes the check of the new interface accepts against the cache are declared if and only if there is none or the entry is no such fallback |
| `BundleCache.RunCached` | services/continuous_task/src/bg_continuous_task_mgr.cpp:666-710 | Over all runs every cached entry is what the bundle declares, or audio playback for one ability that a component has asked for and whose bundle declares nothing |
| `BundleCache.CollectedExact` | services/continuous_task/src/bg_continuous_task_mgr.cpp:691-701 | A name has the modes of the first ability of this name that declares any, and no entry without one |
| `BundleCache.RememberOutcome` | services/continuous_task/src/bg_continuous_task_mgr.cpp:666-710 | An entry is made once, from information that could be read: what is declared, or audio playback for a component when nothing is; other applications are not concerned |
| `BundleCache.StartAsks` | services/continuous_task/src/bg_continuous_task_mgr.cpp:1390-1418 | Which starts look at the bundle: those that nothing stops before, unless a component wants no notification |
| `BundleCache.RestartAsks` | services/continuous_task/src/bg_continuous_task_mgr.cpp:386-393 | A restart looks at the bundles of live tasks with a notification |
| `BundleCache.EntriesDropped` | services/continuous_task/src/bg_continuous_task_mgr.cpp:3205-3222 | A changed bundle and cleared data drop the entry of the application, a change of language all of them, and a restart without a process list starts with none |
| `BundleCache.RestoredCacheOk` | services/continuous_task/src/bg_continuous_task_mgr.cpp:386-393 | A restart fills the cache from live records with a notification only in that way, in any walk order |
| `BundleCache.StepsRun` | services/continuous_task/src/bg_continuous_task_mgr.cpp:1411-1418 | The tasks of a run with the cache are those of the run of its steps |
| `BundleCache.CachedBundleInfos.AddAbilityBgModeInfos` | services/continuous_task/src/bg_continuous_task_mgr.cpp:691-710 | The loop collects the abilities that declare a mode, the first of each name; audio playback stands in for none when a component asks |
| `BundleCache.CachedBundleInfos.SetCachedBundleInfo` | services/continuous_task/src/bg_continuous_task_mgr.cpp:666-689 | An entry is made once and only from readable bundle information; the result says whether there is one |
| `BundleCache.CachedBundleInfos.GetBackgroundModeInfo` | services/continuous_task/src/bg_continuous_task_mgr.cpp:797-808 | What is cached for the ability, or nothing |
| `Witnesses.FallbackBreaks` | services/continuous_task/src/bg_continuous_task_mgr.cpp:702-706 | A run of a component's start of an ability whose bundle declares nothing and a start of that ability by the application, both passing the front checks, after which a new-interface task holds audio playback undeclared |
| `Admission.RunConfigured` | services/continuous_task/src/bg_continuous_task_mgr.cpp:712-755 | The general form: for any configuration that contains whatever the steps found cached, every mode of every new-interface task is in it or covered by the combined mode, over all runs |
| `Admission.UpdateByKeyCombineExact` | services/continuous_task/src/bg_continuous_task_mgr.cpp:1205-1260 | A legacy update keeps that rule if and only if the record its key finds is not a combined request-object task, or its modes are not replaced, or the new modes may be merged |
| `Admission.UnderscoreUpdateBreaks` | services/continuous_task/src/bg_continuous_task_mgr.cpp:1398-1401 | An ability name with an underscore reaches such a record |
| `Admission.LegacyKeyFindsLegacy` | services/continuous_task/src/bg_continuous_task_mgr.cpp:1205-1212 | With underscore-free names a legacy key finds legacy tasks only |
| `Admission.UpdateByIdDeclaredExact` | services/continuous_task/src/bg_continuous_task_mgr.cpp:1160-1203 | An update by id keeps that rule if and only if it does not get as far as replacing the modes or the new modes are declared by the bundle that owns the task |
| `Witnesses.ForeignUpdateBreaks` | services/continuous_task/src/bg_continuous_task_mgr.cpp:1169-1178 | A run of a start by application 2, which caches its configuration, a start by application 1 of an ability with the same name, and an update by application 2: the task of application 1 gets a mode its bundle does not declare, since the task is found by id and the configuration by caller |
| `Witnesses.UnderscoreUpdateReachable` | services/continuous_task/src/bg_continuous_task_mgr.cpp:1205-1212 | A run of one start that passes the front checks and one legacy update after which a combined request-object task holds the data-transfer mode its bundle declares |
| `Rules.RoutineKeeps` | services/continuous_task/src/bg_continuous_task_mgr.cpp:2249-2301 | Every step that neither starts nor updates a task keeps every rule about identity and modes, in memory and in the file |
| `Rules.GoodStartKeeps` | services/continuous_task/src/bg_continuous_task_mgr.cpp:1437-1481 | A start keeps each rule, given what the rule demands of the request |
| `Rules.CheckedDeclared` | services/continuous_task/src/bg_continuous_task_mgr.cpp:712-755 | The mode check of the new interface accepts only modes that are in every configuration which contains what is cached, or are covered by the combined mode there |
| `Rules.UpdateByIdKeeps` | services/continuous_task/src/bg_continuous_task_mgr.cpp:1160-1203 | An update by id changes modes only of an uncombined task that passed all checks |
| `Rules.RestartObeys` | services/common/src/data_storage_helper.cpp:84-99 | A restart re-establishes every rule the file obeys |
| `TaskRecord.RecordRoundTrip` | services/continuous_task/src/continuous_task_record.cpp:189-334 | Task record round trip: writing and reading restores every persisted field, with absent or present want-agent and progress parts and any mode lists below 2^31 |
| `TaskRecord.MembersHold` | services/continuous_task/src/continuous_task_record.cpp:189-236 | Each member of the written object holds what its name says |
| `TaskRecord.ModesRoundTrip` | services/continuous_task/src/continuous_task_record.cpp:133-152 | Any list of modes below 2^31 survives the comma-separated decimal form |
| `TaskRecord.ReadBack` | services/continuous_task/src/continuous_task_record.cpp:255-293 | Every written record parses again |
| `TaskRecord.TableRoundTrip` | services/common/src/data_storage_helper.cpp:55-99 | The table read after a write has the same keys, each with its restored record; an empty table is stored as null |
| `TaskRecord.ToText` | services/continuous_task/src/continuous_task_record.cpp:133-141 | The printing loop yields every mode in decimal followed by a comma |
| `TaskRecord.ToVector` | services/continuous_task/src/continuous_task_record.cpp:143-152 | The reading loop yields the numbers of the non-empty pieces |
| `Decimal.AtoiOfToString` | services/continuous_task/src/continuous_task_record.cpp:143-152 | Reading a printed 32-bit integer gives that integer, negative ones included |
| `Decimal.ToStringInjective` | services/common/src/data_storage_helper.cpp:436-443 | Different integers print differently |
| `Modes.SortMode` | services/common/src/common_utils.cpp:91-110 | The two loops yield the target modes that occur, then the others in order |
| `Modes.SortedSame` | services/common/src/common_utils.cpp:91-110 | No mode is lost or invented, and sorting is a permutation if and only if no target mode is repeated |
| `Modes.SortedCount` | services/common/src/common_utils.cpp:99-108 | How often each mode occurs afterwards |
| `ResourceRecord.ResourceFileRoundTrip` | services/common/src/data_storage_helper.cpp:423-469 | Resource map round trip: both maps come back for every 32-bit key, negative ones included, in any map order, empty maps and empty unit lists included |
| `ResourceRecord.MapRoundTrip` | services/common/src/data_storage_helper.cpp:436-469 | The same for one map; an empty map is stored as null |
| `ResourceRecord.ResourceRoundTrip` | services/efficiency_resources/src/resource_application_record.cpp:77-148 | A record read into a fresh object is the one written, whether or not it has units |
| `ResourceRecord.KeyRoundTrip` | services/common/src/data_storage_helper.cpp:462-469 | A 32-bit key survives printing, reading, and the casts to unsigned and back |
| `ResourceRecord.UnitsRoundTrip` | services/efficiency_resources/src/resource_application_record.cpp:84-97 | A list of units survives |
| `ResourceRecord.ResourceApplicationRecord.ParseToJson` | services/efficiency_resources/src/resource_application_record.cpp:77-98 | The object's JSON value; an empty unit list leaves no member |
| `ResourceRecord.ResourceApplicationRecord.ParseFromJson` | services/efficiency_resources/src/resource_application_record.cpp:100-148 | Fields are replaced and units appended if the value is readable, and nothing changes otherwise |
| `ResourceRecord.ConvertMapToJson` | services/common/src/data_storage_helper.cpp:436-443 | The loop builds one member per key |
| `ResourceRecord.ConvertJsonToMap` | services/common/src/data_storage_helper.cpp:462-469 | The loop reads one entry per member, the first of equal numbers wins, unreadable records get initial values |
| `ResourceRecord.ConvertMaps` | services/common/src/data_storage_helper.cpp:423-434 | The file holds the two maps |
| `ResourceRecord.DivideJsonToMap` | services/common/src/data_storage_helper.cpp:445-460 | Absent, null and malformed parts leave a map empty |
| `ResourceRecord.RefreshThenRestore` | services/common/src/data_storage_helper.cpp:135-157 | Writing the maps and reading the file returns the same two maps |
| `AuthProofs.RunAgreement` | services/continuous_task/src/bg_continuous_task_mgr.cpp:3686-3690 | Auth index agreement: in every state a run reaches whose restored backups are tidy, a search for (bundle, user, clone index) in any map order finds exactly what the lookup under the banner label finds |
| `AuthProofs.ScanIsKey` | services/continuous_task/src/bg_continuous_task_mgr.cpp:3999-4026 | The same for any table whose records sit under their own labels |
| `AuthProofs.OneRecordPerTriple` | services/common/src/data_storage_helper.cpp:120-129 | Such a table has at most one record per triple |
| `AuthProofs.StepIndex` | services/continuous_task/src/bg_continuous_task_mgr.cpp:3719-3766 | Request, clicks, settings, removal, death, dismissal, sweeps, backup and restart keep records under their own labels, and banners with their own records where the backups do |
| `AuthProofs.RestoreExact` | services/common/src/data_storage_helper.cpp:112-130 | Reading a file keeps records under their own labels if and only if every misplaced entry is masked: by a known triple, a taken key, or an earlier entry for its triple |
| `AuthProofs.ForeignKeyBreaks` | services/common/src/data_storage_helper.cpp:127-129 | A file with an entry under a foreign key makes search and lookup disagree |
| `AuthProofs.RunCallbacks` | services/continuous_task/src/bg_continuous_task_mgr.cpp:3678-3685 | Over every run no callback object waits under two keys, every registration is answered or dropped at most once, and a waiting one has been neither |
| `AuthProofs.StepLedger` | services/continuous_task/src/bg_continuous_task_mgr.cpp:4431-4438 | Each registration of the running process either waits and has not ended or has ended exactly once; every handler keeps that |
| `AuthProofs.RunLedger` | services/continuous_task/src/bg_continuous_task_mgr.cpp:4484-4491 | ... over whole runs |
| `AuthProofs.RequestRegisters` | services/continuous_task/src/bg_continuous_task_mgr.cpp:3719-3766 | A request is registered only if its callback waits nowhere and its triple has no record; then both are stored under the same label |
| `AuthProofs.ClickAnswersOwn` | services/continuous_task/src/bg_continuous_task_mgr.cpp:4588-4628 | A banner click never answers or loses a callback that waits under another label |
| `AuthOutcomes.BannerClickOutcome` | services/continuous_task/src/bg_continuous_task_mgr.cpp:4588-4628 | The first button of a banner grants once, the second always: the record has that result and is otherwise unchanged, the file is written, and the callback waiting under the label in the record is answered once with it |
| `AuthOutcomes.DialogClickOutcome` | services/continuous_task/src/bg_continuous_task_mgr.cpp:4402-4442 | The dialog decides with its own result, if it is one of three, in the same way |
| `AuthOutcomes.RequestOutcome` | services/continuous_task/src/bg_continuous_task_mgr.cpp:3675-3766 | The whole answer of a request: already waiting, answered at once with the result of the record, refused, or registered with a new record in all its fields |
| `AuthOutcomes.GrantUntilStopped` | services/continuous_task/src/bg_continuous_task_mgr.cpp:2908-2927 | Allow this time ends when the application stops, always allow stays |
| `AuthOutcomes.SetStateOutcome` | services/continuous_task/src/bg_continuous_task_mgr.cpp:3976-4029 | The system setting: invalid ones change nothing, a known application gets the result, an unknown one a record without a banner |
| `AuthOutcomes.RemoveOutcome` | services/continuous_task/src/bg_continuous_task_mgr.cpp:4473-4493 | Nothing is left under the label, and a waiting callback is dropped |
| `AuthOutcomes.DeathOutcome` | services/continuous_task/src/bg_continuous_task_mgr.cpp:3941-3964 | A dead callback goes, and the record under its key |
| `AuthOutcomes.DismissOutcome` | services/continuous_task/src/bg_continuous_task_mgr.cpp:2817-2832 | Dismissing a banner withdraws a request unless it has been granted |
| `AuthOutcomes.SweepOutcome` | services/continuous_task/src/bg_continuous_task_mgr.cpp:3205-3221 | The loops end exactly the records of a changed bundle, or those granted once to a stopped application, in any order |
| `AuthOutcomes.RenameOutcome` | services/continuous_task/src/bg_continuous_task_mgr.cpp:4339-4345 | A change of language gives every record the current name of its application and touches nothing else |
| `AuthOutcomes.RestoreOutcome` | services/common/src/data_storage_helper.cpp:101-133 | Reading a tidy file keeps what is there and adds exactly the well-placed entries whose key is free |
| `AuthProofs.StepSyncedExact` | services/continuous_task/src/bg_continuous_task_mgr.cpp:3966-3974 | A step leaves the file equal to the table if and only if it is not a change of language that changes a name, nor, with records to lose, a backup that is not a JSON object or a restart without a process list |
| `AuthProofs.RenameBreaks` | services/continuous_task/src/bg_continuous_task_mgr.cpp:4339-4345 | A run of an accepted request and a change of language after which the file does not hold the table |
| `AuthProofs.RunKept` | services/continuous_task/src/bg_continuous_task_mgr.cpp:4312-4360 | Over every run with readable files and process lists the file holds the table up to application names, changes of language included |
| `AuthProofs.RunRecoversAuth` | services/continuous_task/src/bg_continuous_task_mgr.cpp:304-318 | In every such state a restart brings the authorization table back, up to application names, if and only if the process list is readable or the table was empty |
| `AuthProofs.RestartRecoversAuth` | services/common/src/data_storage_helper.cpp:101-133 | The same from any state whose file holds the table up to application names |
| `AuthProofs.UnreadableRestartForgets` | services/continuous_task/src/bg_continuous_task_mgr.cpp:309-318 | An accepted request and a restart without a process list: the record is in the file and no longer in the table |
| `Auth.WrittenEntries` | services/common/src/data_storage_helper.cpp:159-186 | Every written authorization table reads back as the same table |
| `Auth.AuthRoundTrip` | services/continuous_task/src/banner_notification_record.cpp:107-154 | An authorization record survives its JSON form |
| `AuthManager.AuthTable.FindRecord` | services/continuous_task/src/bg_continuous_task_mgr.cpp:3686-3690 | The search over the records; equals the specified step |
| `AuthManager.AuthTable.FindCallback` | services/continuous_task/src/bg_continuous_task_mgr.cpp:3678-3681 | The search over the waiting callbacks; equals the specified step |
| `AuthManager.AuthTable.RequestAuthFromUser` | services/continuous_task/src/bg_continuous_task_mgr.cpp:3675-3766 | All outcomes of a request: already waiting, answered at once, refused, registered; equals the specified step, which AuthOutcomes.RequestOutcome describes |
| `AuthManager.AuthTable.RegisterRequest` | services/continuous_task/src/bg_continuous_task_mgr.cpp:3754-3765 | The callback is stored under the label, over one that still waits there; an existing record stays; equals the specified step |
| `AuthManager.AuthTable.OnPermissionDialogButtonClick` | services/continuous_task/src/bg_continuous_task_mgr.cpp:4402-4442 | The result is stored, written and handed to the waiting callback, which leaves the table; equals the specified step, which AuthOutcomes.DialogClickOutcome describes |
| `AuthManager.AuthTable.OnBannerNotificationActionButtonClick` | services/continuous_task/src/bg_continuous_task_mgr.cpp:4588-4628 | The same for the two banner buttons; other buttons change nothing; equals the specified step, which AuthOutcomes.BannerClickOutcome describes |
| `AuthManager.AuthTable.SetBackgroundTaskState` | services/continuous_task/src/bg_continuous_task_mgr.cpp:3976-4029 | An existing record is updated, otherwise one is inserted; invalid parameters change nothing; equals the specified step, which AuthOutcomes.SetStateOutcome describes |
| `AuthManager.AuthTable.RemoveAuthRecord` | services/continuous_task/src/bg_continuous_task_mgr.cpp:4473-4493 | Record and waiting callback under the label go; equals the specified step, which AuthOutcomes.RemoveOutcome describes |
| `AuthManager.AuthTable.HandleAuthExpiredCallbackDeath` | services/continuous_task/src/bg_continuous_task_mgr.cpp:3941-3964 | A dead callback goes, and the record under its key; equals the specified step, which AuthOutcomes.DeathOutcome describes |
| `AuthManager.AuthTable.StopBannerContinuousTaskByUser` | services/continuous_task/src/bg_continuous_task_mgr.cpp:2817-2832 | Dismissing a banner withdraws a request that was not granted; equals the specified step, which AuthOutcomes.DismissOutcome describes |
| `AuthManager.AuthTable.RemoveMatching` | services/continuous_task/src/bg_continuous_task_mgr.cpp:3210-3220 | The loop erases exactly the matching records and writes after each; equals the specified step, which AuthOutcomes.SweepOutcome describes |
| `AuthManager.AuthTable.OnBundleResourcesChanged` | services/continuous_task/src/bg_continuous_task_mgr.cpp:4339-4345 | Every record gets the current name of its application, and nothing is written; equals the specified step, which AuthOutcomes.RenameOutcome describes |
| `AuthManager.AuthTable.HandlePersistenceData` | services/continuous_task/src/bg_continuous_task_mgr.cpp:304-318 | The authorization part of a restart, with and without a process list; equals the specified step |
| `AuthManager.AuthTable.RestoreAuthRecord` | services/common/src/data_storage_helper.cpp:101-133 | The loop adopts readable entries whose triple and key are free, then writes; equals the specified step, which AuthOutcomes.RestoreOutcome describes |
| `AuthManager.AuthTable.OnRestore` | services/common/src/data_storage_helper.cpp:230-249 | A backup takes the place of the file and is read into the running table; equals the specified step |
| `TaskManager.BgContinuousTaskMgr.OnContinuousTaskChanged` | services/continuous_task/src/bg_continuous_task_mgr.cpp:3159-3191 | Every subscriber is sent its callbacks, in order; equals the specification function of the operation, which Hearing.NotifyDue describes |
| `TaskManager.BgContinuousTaskMgr.HandleAppContinuousTaskStop` | services/continuous_task/src/bg_continuous_task_mgr.cpp:3318-3333 | System abilities are told only when no task of the application is in the table; equals the specification function of the operation |
| `TaskManager.BgContinuousTaskMgr.SendAudioCallBackTaskState` | services/continuous_task/src/bg_continuous_task_mgr.cpp:2546-2575 | Watching applications are told of a stop; equals the specification function of the operation, which Hearing.AudioDue describes |
| `TaskManager.BgContinuousTaskMgr.CancelNotification` | services/continuous_task/src/bg_continuous_task_mgr.cpp:4552-4574 | Cancels are issued only when no remaining record refers to the notification; the result is that of the last cancel; equals the specification function of the operation |
| `TaskManager.BgContinuousTaskMgr.StopBackgroundRunningByTask` | services/continuous_task/src/bg_continuous_task_mgr.cpp:1912-1935 | New state and result of a stop by task id; equals the specification function of the operation, which StepOutcomes.StopByIdOutcome describes |
| `TaskManager.BgContinuousTaskMgr.StopBackgroundRunningByContext` | services/continuous_task/src/bg_continuous_task_mgr.cpp:1889-1910 | The tasks collected by the first loop are stopped one by one until a cancel fails; equals the specification function of the operation |
| `TaskManager.BgContinuousTaskMgr.StopBackgroundRunningInner` | services/continuous_task/src/bg_continuous_task_mgr.cpp:1857-1887 | By id when one is given, otherwise by ability; an error when nothing matches; equals the specification function of the operation, which StepOutcomes.StopByIdOutcome describes |
| `TaskManager.BgContinuousTaskMgr.HandleStopContinuousTask` | services/continuous_task/src/bg_continuous_task_mgr.cpp:2035-2057 | One mode, everything, or the task under one key, by task type; equals the specification function of the operation, which StepOutcomes.StopByTypeLeaves describes |
| `TaskManager.BgContinuousTaskMgr.RemoveContinuousTaskRecordByUid` | services/continuous_task/src/bg_continuous_task_mgr.cpp:2249-2272 | The erasing loop for an application; equals the specification function of the operation, which LoopOutcomes.LoopOutcome describes |
| `TaskManager.BgContinuousTaskMgr.RemoveContinuousTaskRecordByUidAndMode` | services/continuous_task/src/bg_continuous_task_mgr.cpp:2274-2301 | ... for an application and a mode; equals the specification function of the operation, which LoopOutcomes.LoopOutcome describes |
| `TaskManager.BgContinuousTaskMgr.OnAppStopped` | services/continuous_task/src/bg_continuous_task_mgr.cpp:2879-2908 | The task part of the function, an erasing loop with a check and a write per removal; the authorization part is RemoveMatching; equals the specification function of the operation, which LoopOutcomes.LoopOutcome describes |
| `TaskManager.BgContinuousTaskMgr.OnDataCleared` | services/continuous_task/src/bg_continuous_task_mgr.cpp:3223-3237 | ... for cleared application data; equals the specification function of the operation, which LoopOutcomes.LoopOutcome describes |
| `TaskManager.BgContinuousTaskMgr.ClearBgOsAccountTask` | services/continuous_task/src/bg_continuous_task_mgr.cpp:3259-3281 | ... for accounts that are no longer active; equals the specification function of the operation, which LoopOutcomes.LoopLeaves describes |
| `TaskManager.BgContinuousTaskMgr.HandleRemoveTaskByMode` | services/continuous_task/src/bg_continuous_task_mgr.cpp:3367-3387 | ... for tasks of system components with a mode; the cancel comes after the write; equals the specification function of the operation, which LoopOutcomes.LoopLeaves describes |
| `TaskManager.BgContinuousTaskMgr.StopContinuousTaskByUser` | services/continuous_task/src/bg_continuous_task_mgr.cpp:2731-2802 | A dismissed notification removes every task that refers to it; equals the specification function of the operation, which LoopOutcomes.LoopOutcome describes |
| `TaskManager.BgContinuousTaskMgr.DumpCancelTask` | services/continuous_task/src/bg_continuous_task_mgr.cpp:2703-2729 | All tasks are cancelled, the table cleared and written, and each application in it checked once; or the task under one key is stopped; equals the specification function of the operation, which LoopOutcomes.LoopOutcome describes |
| `TaskManager.BgContinuousTaskMgr.SuspendContinuousTask` | services/continuous_task/src/bg_continuous_task_mgr.cpp:2059-2085 | Which of suspension, standby and stop happens; equals the specification function of the operation, which StepOutcomes.SuspendOutcome describes |
| `TaskManager.BgContinuousTaskMgr.HandleSuspendContinuousTask` | services/continuous_task/src/bg_continuous_task_mgr.cpp:2098-2136 | New state after a suspension by key; equals the specification function of the operation, which StepOutcomes.SuspendOutcome describes |
| `TaskManager.BgContinuousTaskMgr.HandleSuspendContinuousTaskByStandby` | services/continuous_task/src/bg_continuous_task_mgr.cpp:2138-2159 | New state after a standby suspension; equals the specification function of the operation, which StepOutcomes.SuspendOutcome describes |
| `TaskManager.BgContinuousTaskMgr.HandleSuspendContinuousAudioTask` | services/continuous_task/src/bg_continuous_task_mgr.cpp:2577-2612 | The audio loop: notice, first suspension, second time removal; equals the specification function of the operation, which LoopOutcomes.LoopOutcome describes |
| `TaskManager.BgContinuousTaskMgr.ActiveContinuousTask` | services/continuous_task/src/bg_continuous_task_mgr.cpp:2161-2181 | Which activation happens; equals the specification function of the operation, which StepOutcomes.ActiveOutcome describes |
| `TaskManager.BgContinuousTaskMgr.HandleActiveContinuousTask` | services/continuous_task/src/bg_continuous_task_mgr.cpp:2183-2219 | The reactivation loop ends although its activating branch does not advance the iterator, with the specified state; equals the specification function of the operation, which StepOutcomes.ReactivatedOutcome describes |
| `TaskManager.BgContinuousTaskMgr.HandleActiveContinuousTaskByStandby` | services/continuous_task/src/bg_continuous_task_mgr.cpp:2221-2234 | The standby activation loop; equals the specification function of the operation, which LoopOutcomes.LoopOutcome describes |
| `TaskManager.BgContinuousTaskMgr.HandleActiveNotification` | services/continuous_task/src/bg_continuous_task_mgr.cpp:2236-2247 | Record, counter and requests after republishing; a suspended record is left alone; equals the specification function of the operation, which Publishing.RefreshIs describes |
| `TaskManager.BgContinuousTaskMgr.SendContinuousTaskNotification` | services/continuous_task/src/bg_continuous_task_mgr.cpp:1570-1613 | Record, counter and requests for each outcome of composing and publishing; equals the specification function of the operation, which Publishing.SendIs describes |
| `TaskManager.BgContinuousTaskMgr.SendLiveViewAndOtherNotification` | services/continuous_task/src/bg_continuous_task_mgr.cpp:3538-3588 | A failing second notification cancels the first; equals the specification function of the operation, which Publishing.SendLiveIs describes |
| `TaskManager.BgContinuousTaskMgr.CheckAbilityTaskNum` | services/continuous_task/src/bg_continuous_task_mgr.cpp:1325-1342 | The counting loop compares the number of request-object tasks of the ability with ten; equals the specification function of the operation |
| `TaskManager.BgContinuousTaskMgr.AllowApplyContinuousTask` | services/continuous_task/src/bg_continuous_task_mgr.cpp:1344-1388 | All outcomes of the admission check; equals the specification function of the operation, which StartOutcomes.AllowedIs describes |
| `TaskManager.BgContinuousTaskMgr.CheckBgmodeTypes` | services/continuous_task/src/bg_continuous_task_mgr.cpp:1444-1453 | The loop returns the first failing mode check; equals the specification function of the operation, which ModeChecks.CheckModesJudged describes |
| `TaskManager.BgContinuousTaskMgr.DetermineMatch` | services/continuous_task/src/bg_continuous_task_mgr.cpp:1515-1559 | The merge loop's outcome; equals the specification function of the operation, which StartOutcomes.CheckMergeIs describes |
| `TaskManager.BgContinuousTaskMgr.CheckCombinedTaskNotification` | services/continuous_task/src/bg_continuous_task_mgr.cpp:1483-1513 | Refusal, separate notification, or sharing with the target marked; equals the specification function of the operation, which StartOutcomes.CheckMergeIs describes |
| `TaskManager.BgContinuousTaskMgr.StartBackgroundRunningSubmit` | services/continuous_task/src/bg_continuous_task_mgr.cpp:1437-1481 | New state and result once a start is admitted; equals the specification function of the operation, which StartOutcomes.StartOutcome describes |
| `TaskManager.BgContinuousTaskMgr.StartBackgroundRunningInner` | services/continuous_task/src/bg_continuous_task_mgr.cpp:1390-1419 | New state and result of a start, every refusal included; equals the specification function of the operation, which StartOutcomes.StartOutcome describes |
| `TaskManager.BgContinuousTaskMgr.FinishUpdate` | services/continuous_task/src/bg_continuous_task_mgr.cpp:1098-1107 | A suspended application is reactivated, then the update is announced and written; equals the specification function of the operation |
| `TaskManager.BgContinuousTaskMgr.UpdateTaskNotification` | services/continuous_task/src/bg_continuous_task_mgr.cpp:1110-1158 | What an update by id does to record and notification; equals the specification function of the operation, which UpdateOutcomes.UpdateByIdOutcome describes |
| `TaskManager.BgContinuousTaskMgr.UpdateBackgroundRunningByTaskIdInner` | services/continuous_task/src/bg_continuous_task_mgr.cpp:1160-1203 | New state and result of an update by id; equals the specification function of the operation, which UpdateOutcomes.UpdateByIdOutcome describes |
| `TaskManager.BgContinuousTaskMgr.UpdateBackgroundRunningInner` | services/continuous_task/src/bg_continuous_task_mgr.cpp:1205-1260 | New state and result of a legacy update; equals the specification function of the operation, which UpdateOutcomes.UpdateByKeyOutcome describes |
| `TaskManager.BgContinuousTaskMgr.UpdateDataTransferProgressInner` | services/continuous_task/src/bg_continuous_task_mgr.cpp:1285-1323 | New state and result of a progress update; equals the specification function of the operation, which UpdateOutcomes.ProgressOutcome describes |
| `TaskManager.BgContinuousTaskMgr.AVSessionNotifyUpdateNotificationInner` | services/continuous_task/src/bg_continuous_task_mgr.cpp:2461-2519 | New state after an AVSession change, branch by branch; equals the specification function of the operation, which UpdateOutcomes.AvSessionOutcome describes |
| `TaskManager.BgContinuousTaskMgr.CancelBgTaskNotification` | services/continuous_task/src/bg_continuous_task_mgr.cpp:4154-4172 | The loop that withdraws notifications when a live view is shown; equals the specification function of the operation, which LoopOutcomes.LoopOutcome describes |
| `TaskManager.BgContinuousTaskMgr.SendNotificationByLiveViewCancel` | services/continuous_task/src/bg_continuous_task_mgr.cpp:4186-4198 | The loop that sends them again; equals the specification function of the operation, which LoopOutcomes.LoopPublishes describes |
| `TaskManager.BgContinuousTaskMgr.SendNotificationByDeteTask` | services/continuous_task/src/bg_continuous_task_mgr.cpp:4389-4400 | The loop that republishes; suspended tasks stay as they are; equals the specification function of the operation, which LoopOutcomes.LoopPublishes describes |
| `TaskManager.BgContinuousTaskMgr.AddSubscriber` | services/continuous_task/src/bg_continuous_task_mgr.cpp:2316-2341 | A known subscriber only gets more flags, a new one is appended; equals the specification function of the operation, which StepOutcomes.SubscribeOutcome describes |
| `TaskManager.BgContinuousTaskMgr.RemoveSubscriber` | services/continuous_task/src/bg_continuous_task_mgr.cpp:2355-2384 | An application stays while it has flags left; equals the specification function of the operation, which StepOutcomes.UnsubscribeOutcome describes |
| `TaskManager.BgContinuousTaskMgr.OnAppStateChanged` | services/continuous_task/src/bg_continuous_task_mgr.cpp:2929-2969 | Foreground set and mode snapshot after a move; equals the specification function of the operation, which StepOutcomes.AppStateOutcome describes |
| `TaskManager.BgContinuousTaskMgr.GetContinuousTaskApps` | services/continuous_task/src/bg_continuous_task_mgr.cpp:2403-2427 | The records a query returns; equals the specification function of the operation |
| `TaskManager.BgContinuousTaskMgr.HandlePersistenceData` | services/continuous_task/src/bg_continuous_task_mgr.cpp:304-318 | State of a new process after reading the file, with and without a process list; equals the specification function of the operation |
| `TaskManager.BgContinuousTaskMgr.CheckPersistenceData` | services/continuous_task/src/bg_continuous_task_mgr.cpp:369-412 | Dead processes' records go, the others are republished, the counters become the maxima over all; equals the specification function of the operation, which StepOutcomes.RestoreRoundOutcome describes |
| `TaskManager.BgContinuousTaskMgr.RestoreApplyRecord` | services/continuous_task/src/bg_continuous_task_mgr.cpp:320-356 | Foreground set and per-application modes are rebuilt; equals the specification function of the operation |
| `TaskManager.BgContinuousTaskMgr.PublishNotification` | services/continuous_task/src/notification_tools.cpp:169-217 | A record without an id gets the next one, the label becomes the record's own, the counter stays advanced on refusal |
| `TaskManager.BgContinuousTaskMgr.PublishSubNotification` | services/continuous_task/src/notification_tools.cpp:384-438 | The same for the additional notification |
| `TaskManager.BgContinuousTaskMgr.OnRemoteSubscriberDied` | services/continuous_task/src/bg_continuous_task_mgr.cpp:2847-2864 | The loop keeps exactly the other subscribers, in order |
| `Session.Serve` | services/continuous_task/src/bg_continuous_task_mgr.cpp:966-968 | A whole session of a new manager object, by its handlers, for every feasible sequence of steps: it ends where the specified run ends and satisfies the basic invariant; when restarts could read the process list it satisfies the full one, and every subscribed system ability holds the set of running tasks |
| `Session.PerformSafely` | services/continuous_task/src/bg_continuous_task_mgr.cpp:1016-1018 | One step by the object's handlers keeps the invariant, basic or full, and the mirror, and tells each system ability of an application stop exactly when it should |
| `Session.PerformAuth` | services/continuous_task/src/bg_continuous_task_mgr.cpp:3719-3766 | One step by the authorization handlers keeps records under their own labels, every registration ended at most once, and the file in step exactly when specified |
| `TaskManager.ListedIds` | services/continuous_task/src/bg_continuous_task_mgr.cpp:2403-2427 | The query without suspended tasks returns exactly the ids the mirror speaks of |
| `TaskManager.ListedIs` | services/continuous_task/src/bg_continuous_task_mgr.cpp:2403-2427 | A query returns exactly the records of the application, or of all when none is named, without suspended ones unless asked for |

## Left out

- Integer width of the two id counters: they are unbounded here, so a run of more than 2^31 starts is not modelled.
- Integer members of the task and authorization files are read without truncation to 32 bits.
- Failing file writes: every write succeeds.
- JSON text: files are abstract JSON values; an object that the program never writes under a data key is not representable there.
- `std::hash` of the ability name is an arbitrary fixed function that prints as digits.
- `atoi` on numbers outside 32 bits, which C leaves undefined, is clamped; no result depends on it.
- Mode bits: an ability's declaration is a set of modes instead of a 32-bit mask, so shifts by more than 31 are not modelled.
- Notification texts: composing a text and publishing is one of five outcomes (`Verdict`), chosen from outside; whether a published notification is refreshed successfully is an input too.
- Bundle declarations are fixed over a run: an update of a bundle drops its cache entry and changes no declaration.
- Application names, AVSession state and live-view state enter through those outcomes; the mapping of suspend modes to reason codes is an input.
- Detailed cancel reasons, which are only reported, never read back by the manager.
- The flag `audioPlayState`, set when audio starts, and the texts refreshed when the language changes; of the latter the renaming of authorization records is modelled.
- Permission, token, signature and malicious-application checks are inputs or belong to the callers.
- The CAR variant of account switching (`HAS_OS_ACCOUNT_CAR`).
- Banner cancels and button texts in the authorization handlers.
- Task queries that only copy record fields, dumps, tracing and event reporting.
- The transient-task manager, the efficiency-resources manager beyond its record codec, IPC proxies and the service front end.
- Reachability.RunInv: fresh task ids and isolated notification ids assume restarts whose process list is readable; Recovery.RestartIdsExact and Recovery.RestartNotesExact state what happens otherwise.
- Mirror.RunMirror: assumes restarts whose process list is readable; Witnesses.MirrorNeedsProcessList shows a run without one that breaks the mirror.

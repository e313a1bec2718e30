/** The run theorems, stated of the two objects: every handler, called in any order, keeps what the
    specification keeps. */
module Session {
  import opened Wrappers
  import opened Json
  import opened TaskRecord
  import opened Subscribers
  import opened TaskTable
  import opened Invariants
  import opened Reachability
  import opened Mirror
  import opened AppStop
  import opened TaskManager
  import Auth
  import AP = AuthProofs
  import AM = AuthManager

  // ---------------------------------------------------------------- the task manager

  /** The walks of the step are walks over the map. */
  ghost predicate Feasible(s: State, step: Step) {
    match step
    case StartStep(_, _, order) => IsWalk(order, s.tasks)
    case LoopStep(Everything(uids), order) => IsWalk(order, s.tasks) && Lists(uids, s.tasks)
    case RestartStep(_, _, order, _) => IsWalk(order, ReadTable(s.disk))
    case _ => true
  }

  method PerformLoop(m: BgContinuousTaskMgr, job: Job, order: seq<string>)
    requires job.Everything? ==> IsWalk(order, m.tasks) && Lists(job.uids, m.tasks)
    modifies m
    ensures m.Abs() == Loop(old(m.Abs()), job, order)
  {
    hide Visits, TellAppStop, TellAll, IsWalk, Lists, SetReason;
    match job {
      case ByUid(uid) => m.RemoveContinuousTaskRecordByUid(uid, order);
      case ByUidAndMode(uid, mode) => m.RemoveContinuousTaskRecordByUidAndMode(uid, mode, order);
      case Dismissed(text, id, isSub) => m.StopShared(text, id, isSub, order);
      case AppGone(uid) => m.OnAppStopped(uid, order);
      case Cleared(uid) => m.OnDataCleared(uid, order);
      case Accounts(active) => m.ClearBgOsAccountTask(active, order);
      case InnerMode(mode) => m.HandleRemoveTaskByMode(mode, order);
      case Everything(uids) => m.CancelAll(order, uids);
      case Audio(uid) => m.HandleSuspendContinuousAudioTask(uid, order);
      case StandbyActive(uid) => m.HandleActiveContinuousTaskByStandby(uid, order);
      case LiveViewShown(uid) => m.CancelBgTaskNotification(uid, order);
      case LiveViewGone(uid, answers) => m.SendNotificationByLiveViewCancel(uid, order, answers);
      case Republish(answers) => m.SendNotificationByDeteTask(order, answers);
    }
  }

  method PerformRestart(m: BgContinuousTaskMgr, alive: Option<set<int>>, reported: Option<set<int>>, order: seq<string>,
                        answers: map<string, Answer>)
    requires IsWalk(order, ReadTable(m.disk))
    modifies m
    ensures m.Abs() == Restart(old(m.Abs()), alive, reported, order, answers)
  {
    hide IsWalk, ReadTable, WriteTable, RestoreRounds, MaxTaskId, MaxNoteId, Rebuild;
    m.Reset();
    m.HandlePersistenceData(alive, reported, order, answers);
  }

  /** The steps an application or the ability manager asks for. */
  predicate IsRequest(step: Step) {
    step.StartStep? || step.UpdateByIdStep? || step.UpdateByKeyStep? || step.ProgressStep? || step.StopStep?
    || step.AbilityGoneStep? || step.StopByKeyStep?
  }

  method PerformRequest(m: BgContinuousTaskMgr, step: Step)
    requires Feasible(m.Abs(), step) && IsRequest(step)
    modifies m
    ensures m.Abs() == Apply(old(m.Abs()), step)
  {
    hide Start, UpdateById, UpdateByKey, UpdateProgress, StopInner, StopByContext, StopByKey, IsWalk, Lists, ReadTable;
    match step {
      case StartStep(q, env, order) => var _ := m.StartBackgroundRunningInner(q, env, order);
      case UpdateByIdStep(caller, p, env, order) =>
        var _ := m.UpdateBackgroundRunningByTaskIdInner(caller, p, env, order);
      case UpdateByKeyStep(k, p, env, order) => var _ := m.UpdateBackgroundRunningInner(k, p, env, order);
      case ProgressStep(uid, taskId, progress, v, order) =>
        var _ := m.UpdateDataTransferProgressInner(uid, taskId, progress, v, order);
      case StopStep(uid, name, abilityId, taskId, order, refused) =>
        var _ := m.StopBackgroundRunningInner(uid, name, abilityId, taskId, order, refused);
      case AbilityGoneStep(uid, name, abilityId, order, refused) =>
        var _ := m.StopBackgroundRunningByContext(uid, name, abilityId, order, refused);
      case StopByKeyStep(k, order, refused) => m.StopKeyedTask(k, order, refused);
    }
  }

  /** One step, by the handlers of the object. */
  method Perform(m: BgContinuousTaskMgr, step: Step)
    requires Feasible(m.Abs(), step)
    modifies m
    ensures m.Abs() == Apply(old(m.Abs()), step)
  {
    if IsRequest(step) {
      PerformRequest(m, step);
      return;
    }
    hide Loop, Dismiss, Suspend, Active, AvSession, AppState, Subscribe, Unsubscribe, Without, Restart, IsWalk, Lists,
      ReadTable;
    match step {
      case LoopStep(job, order) => PerformLoop(m, job, order);
      case DismissStep(k, isSub, order) => var _ := m.StopContinuousTaskByUser(k, isSub, order);
      case SuspendStep(uid, reason, k, standby, order, refused) =>
        m.SuspendContinuousTask(uid, reason, k, standby, order, refused);
      case ActiveStep(uid, standby, order, answers) => m.ActiveContinuousTask(uid, standby, order, answers);
      case AvSessionStep(uid, published, v, order) =>
        m.AVSessionNotifyUpdateNotificationInner(uid, published, v, order);
      case AppStateStep(uid, toForeground, order) => m.OnAppStateChanged(uid, toForeground, order);
      case SubscribeStep(sub) => m.AddSubscriber(sub);
      case UnsubscribeStep(id, flags) => m.RemoveSubscriber(id, flags);
      case SubscriberDiedStep(id) => m.OnRemoteSubscriberDied(id);
      case EnableStep(uid, enable) => m.EnableContinuousTaskRequest(uid, enable);
      case BannerStep => m.nextNote := m.nextNote + 1;
      case RestartStep(alive, reported, order, answers) => PerformRestart(m, alive, reported, order, answers);
    }
  }

  /** What one step by the handlers keeps: the invariant, basic or full, the mirror, and the promise about
      application stops. */
  method PerformSafely(m: BgContinuousTaskMgr, step: Step, ghost g: Grade)
    requires Feasible(m.Abs(), step) && Inv(m.Abs(), g) && (g.Full? ==> Sound(m.Abs(), step))
    modifies m
    ensures m.Abs() == Apply(old(m.Abs()), step) && Inv(m.Abs(), g)
    ensures g.Full? && MirrorOk(old(m.Abs())) && Harmless(old(m.Abs()), step) ==> MirrorOk(m.Abs())
    ensures forall id, u :: !step.RestartStep? && IsSystemAbility(old(m.subs), id) ==>
              Signals(old(m.Abs()), m.Abs(), id, u)
  {
    hide Inv, Apply, MirrorOk, Harmless, Signals, IsSystemAbility, Sound, IsWalk, ReadTable, Lists;
    ghost var s := m.Abs();
    Perform(m, step);
    StepInv(s, step, g);
    InvDistinct(s, g);
    if g.Full? && MirrorOk(s) && Harmless(s, step) {
      StepMirror(s, step);
    }
    if !step.RestartStep? {
      forall id, u | IsSystemAbility(s.subs, id) ensures Signals(s, m.Abs(), id, u) {
        StepSignals(s, step, id, u);
      }
    }
  }

  ghost predicate FeasibleRun(s: State, steps: seq<Step>) {
    if steps == [] then true
    else FeasibleRun(s, steps[..|steps| - 1]) && Feasible(Run(s, steps[..|steps| - 1]), steps[|steps| - 1])
  }

  lemma RunParts(s: State, steps: seq<Step>, i: nat)
    requires i < |steps|
    ensures Run(s, steps[..i + 1]) == Apply(Run(s, steps[..i]), steps[i])
  {
    hide Apply;
    assert steps[..i + 1][..i] == steps[..i];
  }

  lemma {:induction false} FeasibleAt(s: State, steps: seq<Step>, i: nat)
    requires FeasibleRun(s, steps) && i < |steps|
    ensures Feasible(Run(s, steps[..i]), steps[i])
    decreases |steps|
  {
    hide Feasible, Run;
    var n := |steps| - 1;
    if i < n {
      assert steps[..n][..i] == steps[..i];
      FeasibleAt(s, steps[..n], i);
    }
  }

  /** A whole session of a new manager: the object ends where the specification ends, in a state that satisfies the
      basic invariant. When restarts could read the process list it satisfies the full one, and every subscribed
      system ability holds the set of running tasks. */
  method Serve(steps: seq<Step>) returns (m: BgContinuousTaskMgr)
    requires FeasibleRun(INIT, steps)
    ensures fresh(m) && m.Abs() == Run(INIT, steps) && Inv(m.Abs(), Basic)
    ensures SoundRun(INIT, steps) ==> Inv(m.Abs(), Full)
    ensures SoundRun(INIT, steps) && HarmlessRun(INIT, steps) ==> MirrorOk(m.Abs())
  {
    hide Inv, Apply, MirrorOk, Feasible, FeasibleRun, SoundRun, HarmlessRun;
    m := new BgContinuousTaskMgr();
    var i := 0;
    while i < |steps|
      invariant 0 <= i <= |steps| && fresh(m) && m.Abs() == Run(INIT, steps[..i])
    {
      FeasibleAt(INIT, steps, i);
      RunParts(INIT, steps, i);
      Perform(m, steps[i]);
      i := i + 1;
    }
    assert steps[..|steps|] == steps;
    RunInv(steps, Basic);
    if SoundRun(INIT, steps) {
      RunInv(steps, Full);
      if HarmlessRun(INIT, steps) {
        RunMirror(steps);
      }
    }
  }

  // ---------------------------------------------------------------- the authorization table

  /** The walk over the records is complete. */
  ghost predicate Walkable(s: Auth.State, step: Auth.Step, order: seq<string>) {
    (step.RequestStep? ==> AP.Walked(s, step)) && forall k :: k in s.records ==> k in order
  }

  /** One step by the handlers: records stay under their own labels, with and without their banners' labels, every
      registration ends at most once, and the file follows. `order` is a walk over the records. */
  method PerformAuth(t: AM.AuthTable, step: Auth.Step, order: seq<string>, ghost notes: bool)
    requires t.Valid() && Walkable(t.Abs(), step, order)
    modifies t
    ensures t.Valid() && t.Abs() == Auth.Apply(old(t.Abs()), step)
    ensures AP.Ledger(old(t.Abs())) ==> AP.Ledger(t.Abs())
    ensures AP.IndexInv(old(t.Abs()), notes) && AP.TidyBackup(old(t.Abs()), step, notes) ==>
              AP.IndexInv(t.Abs(), notes)
    ensures AP.Synced(old(t.Abs())) ==> (AP.Synced(t.Abs()) <==> AP.Keeps(old(t.Abs()), step))
  {
    hide Auth.Request, Auth.DialogClick, Auth.BannerClick, Auth.SetState, Auth.Remove, Auth.Death, Auth.Dismiss,
      Auth.SweepAll,
      Auth.Rename, Auth.RestoreBackup, Auth.Restart, AP.Ledger, AP.IndexInv, AP.TidyBackup, AP.Synced, AP.Keeps,
      AP.Covers;
    ghost var s := t.Abs();
    match step {
      case RequestStep(a, records, pending) => var _ := t.RequestAuthFromUser(a, records, pending);
      case DialogClickStep(result, bundleName, userId, appIndex) =>
        t.OnPermissionDialogButtonClick(result, bundleName, userId, appIndex);
      case BannerClickStep(button, key) => t.OnBannerNotificationActionButtonClick(button, key);
      case SetStateStep(bundleName, userId, appIndex, result, records) =>
        t.SetBackgroundTaskState(bundleName, userId, appIndex, result, records);
      case RemoveStep(bundleName, userId, appIndex) => t.RemoveAuthRecord(bundleName, userId, appIndex);
      case DeathStep(remote, pending) => t.HandleAuthExpiredCallbackDeath(remote, pending);
      case DismissStep(key) => t.StopBannerContinuousTaskByUser(key);
      case SweepStep(w, records) => t.RemoveMatching(w, records);
      case RenameStep(names) => t.OnBundleResourcesChanged(names, order);
      case RestoreStep(file, entries) => t.OnRestore(file, entries);
      case RestartStep(entries, readable) => t.HandlePersistenceData(entries, readable);
    }
    AuthKeeps(s, step, notes);
  }

  lemma AuthKeeps(s: Auth.State, step: Auth.Step, notes: bool)
    requires step.RequestStep? ==> AP.Walked(s, step)
    ensures AP.Ledger(s) ==> AP.Ledger(Auth.Apply(s, step))
    ensures AP.IndexInv(s, notes) && AP.TidyBackup(s, step, notes) ==> AP.IndexInv(Auth.Apply(s, step), notes)
    ensures AP.Synced(s) ==> (AP.Synced(Auth.Apply(s, step)) <==> AP.Keeps(s, step))
  {
    hide Auth.Apply, AP.Ledger, AP.IndexInv, AP.TidyBackup, AP.Synced, AP.Keeps, AP.Covers;
    if AP.Ledger(s) {
      AP.StepLedger(s, step);
    }
    if AP.IndexInv(s, notes) && AP.TidyBackup(s, step, notes) {
      AP.StepIndex(s, step, notes);
    }
    if AP.Synced(s) {
      AP.StepSyncedExact(s, step);
    }
  }
}
